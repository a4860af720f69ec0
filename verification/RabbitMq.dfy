/**
 * The loops of a RabbitMQ task (internal/brokers/rabbitmq.go), run to their end. What the broker, the clock, the
 * database and `submitToESB` do is a parameter: the sequence of cases the `select` takes, or of outcomes per message.
 */
module RabbitMq {
  import opened Basics
  import opened EsbPipeline
  import opened ReadLoops

  datatype ReadError = ConsumeFailed | LookupFailed | StoreFailed | SubmitFailed

  /** Nothing in the first `k` events ends the loop: it was not stopped, and every log write and flush worked. */
  predicate GoesOn(held: seq<Msg>, hasRecord: bool, events: seq<Seen>, k: nat)
    requires k <= |events|
  {
    && (forall i :: 0 <= i < k ==> !events[i].Stops? && (events[i].Message? ==> events[i].stored))
    && (hasRecord ==> EveryFlushWorks(held, events, k))
  }

  /** How the loop ended after `k` events: it was stopped, a log write or a flush failed, or it would go on. */
  predicate EndsBy(held: seq<Msg>, hasRecord: bool, events: seq<Seen>, k: nat, err: Option<ReadError>) {
    match err
    case None => k <= |events| && GoesOn(held, hasRecord, events, k) && (k < |events| ==> events[k].Stops?)
    case Some(e) =>
      && 0 < k <= |events| && GoesOn(held, hasRecord, events, k - 1)
      && ((e == StoreFailed && events[k - 1].Message? && !events[k - 1].stored) ||
          (e == SubmitFailed && events[k - 1] == Lull(false) && hasRecord && Unflushed(held, events, k - 1) != []))
  }

  /** What the loop still holds, and what it has logged. */
  function HeldAt(held: seq<Msg>, hasRecord: bool, events: seq<Seen>, k: nat, err: Option<ReadError>): seq<Msg>
    requires EndsBy(held, hasRecord, events, k, err)
  {
    Holds(held, hasRecord, events, if err == Some(SubmitFailed) then k - 1 else k)
  }

  function LoggedAt(held: seq<Msg>, hasRecord: bool, events: seq<Seen>, k: nat, err: Option<ReadError>): seq<Msg>
    requires EndsBy(held, hasRecord, events, k, err)
  {
    Bodies(events, if err == Some(StoreFailed) then k - 1 else k)
  }

  /** In the terms of the whole sequence of events. */
  lemma EndsByMeans(held: seq<Msg>, hasRecord: bool, events: seq<Seen>, k: nat, err: Option<ReadError>)
    requires EndsBy(held, hasRecord, events, k, err)
    ensures hasRecord ==> (err == Some(SubmitFailed) <==> !EveryFlushWorks(held, events, k))
    ensures err == Some(StoreFailed) <==> LoggedAt(held, hasRecord, events, k, err) != Bodies(events, k)
    ensures err == Some(StoreFailed) ==>
              var consumed := Bodies(events, k);
              consumed != [] && LoggedAt(held, hasRecord, events, k, err) == consumed[..|consumed| - 1]
  {
  }

  lemma StoppedHere(held: seq<Msg>, hasRecord: bool, events: seq<Seen>, k: nat)
    requires k <= |events| && GoesOn(held, hasRecord, events, k) && (k < |events| ==> events[k].Stops?)
    ensures EndsBy(held, hasRecord, events, k, None)
    ensures HeldAt(held, hasRecord, events, k, None) == Holds(held, hasRecord, events, k)
    ensures LoggedAt(held, hasRecord, events, k, None) == Bodies(events, k)
  {
  }

  lemma StoreFailsHere(held: seq<Msg>, hasRecord: bool, events: seq<Seen>, k: nat)
    requires k < |events| && GoesOn(held, hasRecord, events, k) && events[k].Message? && !events[k].stored
    ensures EndsBy(held, hasRecord, events, k + 1, Some(StoreFailed))
    ensures HeldAt(held, hasRecord, events, k + 1, Some(StoreFailed))
         == Holds(held, hasRecord, events, k) + [events[k].body]
    ensures LoggedAt(held, hasRecord, events, k + 1, Some(StoreFailed)) == Bodies(events, k)
  {
    HoldsMore(held, hasRecord, events, k);
  }

  lemma FlushFailsHere(held: seq<Msg>, events: seq<Seen>, k: nat)
    requires k < |events| && GoesOn(held, true, events, k) && events[k] == Lull(false)
    requires Unflushed(held, events, k) != []
    ensures EndsBy(held, true, events, k + 1, Some(SubmitFailed))
    ensures HeldAt(held, true, events, k + 1, Some(SubmitFailed)) == Unflushed(held, events, k)
    ensures LoggedAt(held, true, events, k + 1, Some(SubmitFailed)) == Bodies(events, k) == Bodies(events, k + 1)
  {
  }

  /** One more event that does not end the loop. */
  lemma GoesOnMore(held: seq<Msg>, hasRecord: bool, events: seq<Seen>, k: nat)
    requires k < |events| && GoesOn(held, hasRecord, events, k)
    requires match events[k]
             case Message(_, stored) => stored
             case Lull(submitted) => submitted || !hasRecord || Unflushed(held, events, k) == []
             case Stops => false
    ensures GoesOn(held, hasRecord, events, k + 1)
    ensures Bodies(events, k + 1)
         == if events[k].Message? then Bodies(events, k) + [events[k].body] else Bodies(events, k)
  {
  }

  // ----- the machine's reader -----

  function LoopReader(msgs: seq<Msg>, hasRecord: bool, ended: bool, err: Option<ReadError>): Reader {
    Reader(msgs, if ended then Ended else AtHead, true, false, err.Some?, err == Some(StoreFailed), hasRecord)
  }

  /** The in-side at the head of the loop, where everything consumed is logged. */
  function Head(msgs: seq<Msg>, hasRecord: bool, consumed: seq<Msg>, forwarded: multiset<Msg>): In {
    Alone(LoopReader(msgs, hasRecord, false, None), consumed, consumed, 0, forwarded, multiset{})
  }

  lemma Begins(c: Config, held: seq<Msg>, hasRecord: bool)
    requires c.broker.RabbitMQ?
    ensures Reached(c, held, Head(held, hasRecord, [], multiset{}))
  {
    ReachedAtOnce(c, held);
    ReachedNext(c, held, NewReader().(buf := held), [], [], 0, multiset{}, multiset{}, BeginRead(0, hasRecord));
  }

  lemma Receives(c: Config, held: seq<Msg>, msgs: seq<Msg>, hasRecord: bool, consumed: seq<Msg>,
                 forwarded: multiset<Msg>, body: Msg, stored: bool)
    requires c.broker.RabbitMQ? && Reached(c, held, Head(msgs, hasRecord, consumed, forwarded))
    ensures stored ==> Reached(c, held, Head(msgs + [body], hasRecord, consumed + [body], forwarded))
    ensures !stored ==> Reached(c, held, Alone(LoopReader(msgs + [body], hasRecord, true, Some(StoreFailed)),
                                               consumed + [body], consumed, 1, forwarded, multiset{}))
  {
    var r := LoopReader(msgs, hasRecord, false, None);
    ReachedNext(c, held, r, consumed, consumed, 0, forwarded, multiset{}, Deliver(0, body));
    ReachedNext(c, held, r.(buf := msgs + [body], loop := Logging(body)), consumed + [body], consumed, 0, forwarded,
                multiset{}, LogMessage(0, stored));
  }

  lemma Flushes(c: Config, held: seq<Msg>, msgs: seq<Msg>, consumed: seq<Msg>, forwarded: multiset<Msg>)
    requires c.broker.RabbitMQ? && msgs != [] && Reached(c, held, Head(msgs, true, consumed, forwarded))
    ensures Reached(c, held, Head([], true, consumed, forwarded + multiset(msgs)))
  {
    ReachedNext(c, held, LoopReader(msgs, true, false, None), consumed, consumed, 0, forwarded, multiset{},
                FlushOk(0, msgs, 0, 0));
  }

  /** One event that does not end the loop. */
  lemma ReaderFollowsOne(c: Config, held: seq<Msg>, hasRecord: bool, events: seq<Seen>, k: nat,
                         forwarded: multiset<Msg>) returns (forwarded': multiset<Msg>)
    requires c.broker.RabbitMQ? && k < |events| && GoesOn(held, hasRecord, events, k + 1)
    requires Reached(c, held, Head(Holds(held, hasRecord, events, k), hasRecord, Bodies(events, k), forwarded))
    requires Gone(held, Bodies(events, k), Holds(held, hasRecord, events, k), forwarded)
    ensures Reached(c, held, Head(Holds(held, hasRecord, events, k + 1), hasRecord, Bodies(events, k + 1), forwarded'))
    ensures Gone(held, Bodies(events, k + 1), Holds(held, hasRecord, events, k + 1), forwarded')
  {
    var msgs, consumed := Holds(held, hasRecord, events, k), Bodies(events, k);
    HoldsMore(held, hasRecord, events, k);
    forwarded' := forwarded;
    if events[k].Message? {
      Receives(c, held, msgs, hasRecord, consumed, forwarded, events[k].body, true);
      GoneGrows(held, consumed, msgs, forwarded, events[k].body);
    } else if hasRecord && msgs != [] {
      Flushes(c, held, msgs, consumed, forwarded);
      forwarded' := forwarded + multiset(msgs);
    }
  }

  /** It goes through the first `k` events like the loop. */
  lemma {:induction false} ReaderFollows(c: Config, held: seq<Msg>, hasRecord: bool, events: seq<Seen>, k: nat)
    returns (forwarded: multiset<Msg>)
    requires c.broker.RabbitMQ? && k <= |events| && GoesOn(held, hasRecord, events, k)
    ensures Reached(c, held, Head(Holds(held, hasRecord, events, k), hasRecord, Bodies(events, k), forwarded))
    ensures Gone(held, Bodies(events, k), Holds(held, hasRecord, events, k), forwarded)
  {
    if k == 0 {
      forwarded := multiset{};
      assert held + [] == held;
      Begins(c, held, hasRecord);
    } else {
      forwarded := ReaderFollows(c, held, hasRecord, events, k - 1);
      forwarded := ReaderFollowsOne(c, held, hasRecord, events, k - 1, forwarded);
    }
  }

  /** The machine's in-side where the loop has ended like this. */
  function After(held: seq<Msg>, hasRecord: bool, events: seq<Seen>, k: nat, err: Option<ReadError>,
                 forwarded: multiset<Msg>): In
    requires EndsBy(held, hasRecord, events, k, err)
  {
    Alone(LoopReader(HeldAt(held, hasRecord, events, k, err), hasRecord, err.Some? || k < |events|, err),
          Bodies(events, k), LoggedAt(held, hasRecord, events, k, err), if err == Some(StoreFailed) then 1 else 0,
          forwarded, multiset{})
  }

  lemma StoreEndsReader(c: Config, held: seq<Msg>, hasRecord: bool, events: seq<Seen>, k: nat, err: Option<ReadError>)
    returns (forwarded: multiset<Msg>)
    requires c.broker.RabbitMQ? && EndsBy(held, hasRecord, events, k, err) && err == Some(StoreFailed)
    ensures Reached(c, held, After(held, hasRecord, events, k, err, forwarded))
    ensures Gone(held, Bodies(events, k), HeldAt(held, hasRecord, events, k, err), forwarded)
  {
    var msgs, consumed, body := Holds(held, hasRecord, events, k - 1), Bodies(events, k - 1), events[k - 1].body;
    forwarded := ReaderFollows(c, held, hasRecord, events, k - 1);
    StoreFailsHere(held, hasRecord, events, k - 1);
    assert Bodies(events, k) == consumed + [body];
    Receives(c, held, msgs, hasRecord, consumed, forwarded, body, false);
    GoneGrows(held, consumed, msgs, forwarded, body);
    assert After(held, hasRecord, events, k, err, forwarded)
        == Alone(LoopReader(msgs + [body], hasRecord, true, err), consumed + [body], consumed, 1, forwarded,
                 multiset{});
  }

  lemma FlushEndsReader(c: Config, held: seq<Msg>, hasRecord: bool, events: seq<Seen>, k: nat, err: Option<ReadError>)
    returns (forwarded: multiset<Msg>)
    requires c.broker.RabbitMQ? && EndsBy(held, hasRecord, events, k, err) && err == Some(SubmitFailed)
    ensures Reached(c, held, After(held, hasRecord, events, k, err, forwarded))
    ensures Gone(held, Bodies(events, k), HeldAt(held, hasRecord, events, k, err), forwarded)
  {
    var msgs, consumed := Holds(held, hasRecord, events, k - 1), Bodies(events, k - 1);
    forwarded := ReaderFollows(c, held, hasRecord, events, k - 1);
    ReachedNext(c, held, LoopReader(msgs, hasRecord, false, None), consumed, consumed, 0, forwarded, multiset{},
                FlushFails(0));
  }

  lemma DeadlineEndsReader(c: Config, held: seq<Msg>, hasRecord: bool, events: seq<Seen>, k: nat,
                           err: Option<ReadError>) returns (forwarded: multiset<Msg>)
    requires c.broker.RabbitMQ? && EndsBy(held, hasRecord, events, k, err) && err == None
    ensures Reached(c, held, After(held, hasRecord, events, k, err, forwarded))
    ensures Gone(held, Bodies(events, k), HeldAt(held, hasRecord, events, k, err), forwarded)
  {
    forwarded := ReaderFollows(c, held, hasRecord, events, k);
    if k < |events| {
      var msgs, consumed := Holds(held, hasRecord, events, k), Bodies(events, k);
      ReachedNext(c, held, LoopReader(msgs, hasRecord, false, None), consumed, consumed, 0, forwarded, multiset{},
                  Deadline(0));
    }
  }

  lemma ReaderEnds(c: Config, held: seq<Msg>, hasRecord: bool, events: seq<Seen>, k: nat, err: Option<ReadError>)
    returns (forwarded: multiset<Msg>)
    requires c.broker.RabbitMQ? && EndsBy(held, hasRecord, events, k, err)
    ensures Reached(c, held, After(held, hasRecord, events, k, err, forwarded))
    ensures Gone(held, Bodies(events, k), HeldAt(held, hasRecord, events, k, err), forwarded)
  {
    if err == None {
      forwarded := DeadlineEndsReader(c, held, hasRecord, events, k, err);
    } else if err == Some(StoreFailed) {
      forwarded := StoreEndsReader(c, held, hasRecord, events, k, err);
    } else {
      forwarded := FlushEndsReader(c, held, hasRecord, events, k, err);
    }
  }

  /** The machine's reader and the loop agree: same messages, batches, log and error. */
  ghost predicate Agrees(after: In, msgs: seq<Msg>, consumed: seq<Msg>, log: seq<Msg>, batches: seq<seq<Msg>>,
                         err: Option<ReadError>, ended: bool) {
    && after.readers.Keys == {0}
    && after.readers[0].buf == msgs && after.consumed == consumed && after.log == log
    && after.forwarded == multiset(Flatten(batches)) && after.lost == multiset{}
    && (after.readers[0].failed <==> err.Some?)
    && after.readers[0].loop == if ended then Ended else AtHead
  }

  lemma ReaderAgrees(c: Config, held: seq<Msg>, hasRecord: bool, events: seq<Seen>, k: nat, err: Option<ReadError>,
                     batches: seq<seq<Msg>>) returns (after: In)
    requires c.broker.RabbitMQ? && EndsBy(held, hasRecord, events, k, err)
    requires Accounts(held, Bodies(events, k), batches, [], HeldAt(held, hasRecord, events, k, err))
    ensures Reached(c, held, after)
    ensures Agrees(after, HeldAt(held, hasRecord, events, k, err), Bodies(events, k),
                   LoggedAt(held, hasRecord, events, k, err), batches, err, err.Some? || k < |events|)
  {
    var forwarded := ReaderEnds(c, held, hasRecord, events, k, err);
    GoneIsFlushed(held, Bodies(events, k), HeldAt(held, hasRecord, events, k, err), batches, [], forwarded);
    after := After(held, hasRecord, events, k, err, forwarded);
  }

  lemma ReaderFailsAtOnce(c: Config, held: seq<Msg>, err: ReadError) returns (after: In)
    ensures Reached(c, held, after) && Agrees(after, held, [], [], [], Some(err), true)
  {
    ReachedAtOnce(c, held);
    ReachedNext(c, held, NewReader().(buf := held), [], [], 0, multiset{}, multiset{}, BeginFails(0));
    after := Alone(ReaderNext(c, NewReader().(buf := held), BeginFails(0)), [], [], 0, multiset{}, multiset{});
  }

  class ReadTask {
    var msgs: seq<Msg>

    constructor ()
      ensures msgs == []
    {
      msgs := [];
    }

    /**
     * The `for` loop of `read`: returns what was consumed, the batches handed to `submitToESB`, the read log, and
     * the error; `k` is the number of events it took note of.
     */
    method SelectLoop(hasRecord: bool, events: seq<Seen>)
      returns (consumed: seq<Msg>, batches: seq<seq<Msg>>, log: seq<Msg>, err: Option<ReadError>, k: nat)
      modifies this
      ensures EndsBy(old(msgs), hasRecord, events, k, err)
      ensures consumed == Bodies(events, k) && log == LoggedAt(old(msgs), hasRecord, events, k, err)
      ensures msgs == HeldAt(old(msgs), hasRecord, events, k, err)
      ensures Accounts(old(msgs), consumed, batches, [], msgs)
      ensures NoneEmpty(batches)
      ensures !hasRecord ==> batches == []
    {
      consumed, batches, log, err, k := [], [], [], None, 0;
      NothingYet(msgs);
      assert msgs + [] == msgs;
      while k < |events|
        invariant 0 <= k <= |events| && consumed == Bodies(events, k) == log
        invariant Accounts(old(msgs), consumed, batches, [], msgs)
        invariant NoneEmpty(batches)
        invariant msgs == Holds(old(msgs), hasRecord, events, k) && (!hasRecord ==> batches == [])
        invariant GoesOn(old(msgs), hasRecord, events, k)
      {
        match events[k] {
          case Stops =>
            StoppedHere(old(msgs), hasRecord, events, k);
            return;
          case Message(body, stored) =>
            MessageJoins(old(msgs), consumed, batches, [], msgs, body);
            msgs := msgs + [body];
            consumed := consumed + [body];
            if !stored {
              StoreFailsHere(old(msgs), hasRecord, events, k);
              err, k := Some(StoreFailed), k + 1;
              return;
            }
            log := log + [body];
          case Lull(submitted) =>
            if hasRecord && |msgs| > 0 {
              if !submitted {
                FlushFailsHere(old(msgs), events, k);
                err, k := Some(SubmitFailed), k + 1;
                return;
              }
              BatchLeaves(old(msgs), consumed, batches, msgs);
              batches := batches + [msgs];
              msgs := [];
            }
        }
        HoldsMore(old(msgs), hasRecord, events, k);
        GoesOnMore(old(msgs), hasRecord, events, k);
        k := k + 1;
      }
      StoppedHere(old(msgs), hasRecord, events, k);
    }

    /** `read`: a failure before the loop, or the loop. */
    method Read(consumes: bool, record: Lookup, events: seq<Seen>, ghost c: Config)
      returns (consumed: seq<Msg>, batches: seq<seq<Msg>>, log: seq<Msg>, err: Option<ReadError>, k: nat,
               ghost after: In)
      requires c.broker.RabbitMQ?
      modifies this
      ensures k <= |events| && consumed == Bodies(events, k)
      ensures Accounts(old(msgs), consumed, batches, [], msgs)
      ensures NoneEmpty(batches)
      ensures record != HasRecord ==> batches == [] && msgs == old(msgs) + consumed
      ensures !consumes <==> err == Some(ConsumeFailed)
      ensures consumes ==> (record == LookupError <==> err == Some(LookupFailed))
      ensures err == None ==> log == consumed && (k < |events| ==> events[k].Stops?)
      ensures err == Some(StoreFailed) <==> log != consumed
      ensures err == Some(StoreFailed) ==> consumed != [] && log == consumed[..|consumed| - 1]
      ensures record == HasRecord && err in {None, Some(StoreFailed)} ==> msgs == Unflushed(old(msgs), events, k)
      ensures record == HasRecord && consumes ==>
                (err == Some(SubmitFailed) <==> !EveryFlushWorks(old(msgs), events, k))
      ensures err == Some(SubmitFailed) ==>
                && record == HasRecord && 0 < k && events[k - 1] == Lull(false)
                && msgs != [] && msgs == Unflushed(old(msgs), events, k - 1)
      // the machine's reader reaches a state in which it has done the same
      ensures Reached(c, old(msgs), after)
      ensures Agrees(after, msgs, consumed, log, batches, err, err.Some? || k < |events|)
    {
      if !consumes || record == LookupError {
        err := Some(if !consumes then ConsumeFailed else LookupFailed);
        consumed, batches, log, k := [], [], [], 0;
        NothingYet(msgs);
        assert msgs + [] == msgs;
        after := ReaderFailsAtOnce(c, msgs, err.value);
        return;
      }
      var hasRecord := record == HasRecord;
      consumed, batches, log, err, k := SelectLoop(hasRecord, events);
      EndsByMeans(old(msgs), hasRecord, events, k, err);
      after := ReaderAgrees(c, old(msgs), hasRecord, events, k, err, batches);
    }
  }

  /** What happens to one message: published and logged, not published, or published but not logged. */
  datatype SendOutcome = Sent | PublishFails | StoreFails

  datatype WriteError = PublishFailed | WriteLogFailed

  /**
   * `write`: the log is a prefix of what was published, and that of the task's messages; they differ by at most one.
   * The machine's writer takes one step for each message published.
   */
  method Write(msgs: seq<Msg>, outcomes: seq<SendOutcome>, ghost c: Config)
    returns (published: seq<Msg>, logged: seq<Msg>, err: Option<WriteError>, ghost steps: seq<Step>)
    requires |outcomes| == |msgs| && c.outBroker.RabbitMQ?
    ensures logged <= published <= msgs && |published| <= |logged| + 1
    ensures err == None <==> forall i :: 0 <= i < |outcomes| ==> outcomes[i] == Sent
    ensures err == None ==> logged == published == msgs
    ensures err != None ==>
              && |logged| < |msgs| && outcomes[|logged|] != Sent
              && (forall i :: 0 <= i < |logged| ==> outcomes[i] == Sent)
              && (err == Some(PublishFailed) <==> outcomes[|logged|] == PublishFails)
              && published == if outcomes[|logged|] == PublishFails then logged else msgs[..|logged| + 1]
    ensures JobRuns(c, Sole(NewJob(msgs), []), steps, Sole(Job(msgs[|published|..], [], false), published))
    ensures MayReturn(Job(msgs[|published|..], [], false), err.Some?)
  {
    published, logged, err, steps := [], [], None, [];
    ghost var start := Sole(NewJob(msgs), []);
    for i := 0 to |msgs|
      invariant logged == published == msgs[..i]
      invariant forall j :: 0 <= j < i ==> outcomes[j] == Sent
      invariant JobRuns(c, start, steps, Sole(Job(msgs[i..], [], false), msgs[..i]))
    {
      if outcomes[i] == PublishFails {
        err := Some(PublishFailed);
        return;
      }
      PublishNext(c, msgs, i);
      JobSnoc(c, start, steps, Sole(Job(msgs[i..], [], false), msgs[..i]), Publish(0));
      steps := steps + [Publish(0)];
      published := published + [msgs[i]];
      if outcomes[i] == StoreFails {
        err := Some(WriteLogFailed);
        return;
      }
      logged := logged + [msgs[i]];
    }
  }
}
