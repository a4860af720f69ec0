/**
 * The loops of a Kafka task (internal/brokers/kafka.go). The poll goroutine runs until the main goroutine or an
 * error clears `run`; `read` joins it before it returns, so one call of `Read` is one complete polling loop.
 */
module Kafka {
  import opened Basics
  import opened EsbPipeline
  import opened ReadLoops

  datatype ReadError = ConsumerFailed | SubscribeFailed | LookupFailed | DatabaseFailed | BrokerFailed | SubmitFailed

  /** Nothing in the first `k` polls ends the loop: no broker error, and every flush worked. */
  predicate GoesOn(held: seq<Msg>, hasRecord: bool, events: seq<Seen>, k: nat)
    requires k <= |events|
  {
    (forall i :: 0 <= i < k ==> !events[i].Stops?) && (hasRecord ==> EveryFlushWorks(held, events, k))
  }

  /** How the loop ended after `k` polls: the deadline, a broker error, or a flush that failed. */
  predicate EndsBy(held: seq<Msg>, hasRecord: bool, events: seq<Seen>, k: nat, err: Option<ReadError>) {
    match err
    case None => k == |events| && GoesOn(held, hasRecord, events, k)
    case Some(e) =>
      && 0 < k <= |events| && GoesOn(held, hasRecord, events, k - 1)
      && ((e == BrokerFailed && events[k - 1].Stops?) ||
          (e == SubmitFailed && events[k - 1] == Lull(false) && hasRecord && Unflushed(held, events, k - 1) != []))
  }

  /** The batch that is cleared although its submission failed. */
  function DroppedAt(held: seq<Msg>, events: seq<Seen>, k: nat, err: Option<ReadError>): seq<Msg>
    requires k <= |events|
  {
    if err == Some(SubmitFailed) && 0 < k then Unflushed(held, events, k - 1) else []
  }

  /** In the terms of the whole sequence of polls. */
  lemma EndsByMeans(held: seq<Msg>, hasRecord: bool, events: seq<Seen>, k: nat, err: Option<ReadError>)
    requires EndsBy(held, hasRecord, events, k, err)
    ensures err in {None, Some(BrokerFailed), Some(SubmitFailed)} && (err == None ==> k == |events|)
    ensures hasRecord ==> (err == Some(SubmitFailed) <==> !EveryFlushWorks(held, events, k))
    ensures err == Some(BrokerFailed) <==> 0 < k && events[k - 1].Stops?
    ensures err == Some(SubmitFailed) ==>
              && hasRecord && 0 < k && events[k - 1] == Lull(false)
              && Unflushed(held, events, k) == [] && DroppedAt(held, events, k, err) == Unflushed(held, events, k - 1)
    ensures DroppedAt(held, events, k, err) != [] <==> err == Some(SubmitFailed)
  {
  }

  lemma BrokerErrorHere(held: seq<Msg>, hasRecord: bool, events: seq<Seen>, k: nat)
    requires k < |events| && GoesOn(held, hasRecord, events, k) && events[k].Stops?
    ensures EndsBy(held, hasRecord, events, k + 1, Some(BrokerFailed))
    ensures Holds(held, hasRecord, events, k + 1) == Holds(held, hasRecord, events, k)
    ensures Bodies(events, k + 1) == Bodies(events, k) && Stored(events, k + 1) == Stored(events, k)
    ensures DroppedAt(held, events, k + 1, Some(BrokerFailed)) == []
  {
  }

  lemma FlushFailsHere(held: seq<Msg>, events: seq<Seen>, k: nat)
    requires k < |events| && GoesOn(held, true, events, k) && events[k] == Lull(false)
    requires Unflushed(held, events, k) != []
    ensures EndsBy(held, true, events, k + 1, Some(SubmitFailed))
    ensures Holds(held, true, events, k + 1) == []
    ensures Bodies(events, k + 1) == Bodies(events, k) && Stored(events, k + 1) == Stored(events, k)
    ensures DroppedAt(held, events, k + 1, Some(SubmitFailed)) == Unflushed(held, events, k)
  {
  }

  /** One more poll that does not end the loop. */
  lemma GoesOnMore(held: seq<Msg>, hasRecord: bool, events: seq<Seen>, k: nat)
    requires k < |events| && GoesOn(held, hasRecord, events, k) && !events[k].Stops?
    requires events[k] == Lull(false) && hasRecord ==> Unflushed(held, events, k) == []
    ensures GoesOn(held, hasRecord, events, k + 1)
    ensures Bodies(events, k + 1)
         == if events[k].Message? then Bodies(events, k) + [events[k].body] else Bodies(events, k)
    ensures Stored(events, k + 1)
         == if events[k].Message? && events[k].stored then Stored(events, k) + [events[k].body] else Stored(events, k)
    ensures Holds(held, hasRecord, events, k + 1)
         == match events[k]
            case Message(body, _) => Holds(held, hasRecord, events, k) + [body]
            case Lull(_) => if hasRecord then [] else Holds(held, hasRecord, events, k)
            case Stops => Holds(held, hasRecord, events, k)
  {
    HoldsMore(held, hasRecord, events, k);
  }

  // ----- the machine's reader -----

  function PollReader(msgs: seq<Msg>, hasRecord: bool, err: Option<ReadError>): Reader {
    Reader(msgs, AtHead, err.None?, false, err.Some?, false, hasRecord)
  }

  /** The in-side between two polls: what was consumed and is not in the log was missed. */
  ghost predicate AtPoll(c: Config, held: seq<Msg>, hasRecord: bool, events: seq<Seen>, k: nat,
                         err: Option<ReadError>, missed: nat, forwarded: multiset<Msg>)
    requires k <= |events|
  {
    && Reached(c, held, Alone(PollReader(Holds(held, hasRecord, events, k), hasRecord, err), Bodies(events, k),
                              Stored(events, k), missed, forwarded, multiset(DroppedAt(held, events, k, err))))
    && Gone(held, Bodies(events, k), Holds(held, hasRecord, events, k),
            forwarded + multiset(DroppedAt(held, events, k, err)))
    && missed + |Stored(events, k)| == |Bodies(events, k)|
  }

  lemma Begins(c: Config, held: seq<Msg>, hasRecord: bool, events: seq<Seen>)
    requires c.broker.Kafka?
    ensures AtPoll(c, held, hasRecord, events, 0, None, 0, multiset{})
  {
    ReachedAtOnce(c, held);
    ReachedNext(c, held, NewReader().(buf := held), [], [], 0, multiset{}, multiset{}, BeginRead(0, hasRecord));
    assert held + [] == held;
  }

  /** A poll that brings a message, whose log write may fail unnoticed. */
  lemma PollsMessage(c: Config, held: seq<Msg>, msgs: seq<Msg>, hasRecord: bool, consumed: seq<Msg>, log: seq<Msg>,
                     missed: nat, forwarded: multiset<Msg>, body: Msg, stored: bool)
    requires c.broker.Kafka?
    requires Reached(c, held, Alone(PollReader(msgs, hasRecord, None), consumed, log, missed, forwarded, multiset{}))
    ensures Reached(c, held, Alone(PollReader(msgs + [body], hasRecord, None), consumed + [body],
                                   if stored then log + [body] else log, if stored then missed else missed + 1,
                                   forwarded, multiset{}))
  {
    var r := PollReader(msgs, hasRecord, None);
    ReachedNext(c, held, r, consumed, log, missed, forwarded, multiset{}, Poll(0));
    ReachedNext(c, held, r.(loop := InPoll), consumed, log, missed, forwarded, multiset{}, Deliver(0, body));
    ReachedNext(c, held, r.(buf := msgs + [body], loop := Logging(body)), consumed + [body], log, missed, forwarded,
                multiset{}, LogMessage(0, stored));
  }

  /** Any other poll: nothing comes, and the batch goes on if there is one; or the broker reports an error. */
  lemma PollsNothing(c: Config, held: seq<Msg>, msgs: seq<Msg>, hasRecord: bool, consumed: seq<Msg>, log: seq<Msg>,
                     missed: nat, forwarded: multiset<Msg>)
    requires c.broker.Kafka?
    requires Reached(c, held, Alone(PollReader(msgs, hasRecord, None), consumed, log, missed, forwarded, multiset{}))
    ensures !(hasRecord && msgs != []) ==>
              Reached(c, held, Alone(PollReader(msgs, hasRecord, None), consumed, log, missed, forwarded, multiset{}))
    ensures hasRecord && msgs != [] ==>
              && Reached(c, held, Alone(PollReader([], hasRecord, None), consumed, log, missed,
                                        forwarded + multiset(msgs), multiset{}))
              && Reached(c, held, Alone(PollReader([], hasRecord, Some(SubmitFailed)), consumed, log, missed, forwarded,
                                        multiset(msgs)))
    ensures Reached(c, held, Alone(PollReader(msgs, hasRecord, Some(BrokerFailed)), consumed, log, missed, forwarded,
                                   multiset{}))
  {
    var r := PollReader(msgs, hasRecord, None);
    ReachedNext(c, held, r, consumed, log, missed, forwarded, multiset{}, Poll(0));
    var p := r.(loop := InPoll);
    ReachedNext(c, held, p, consumed, log, missed, forwarded, multiset{}, PollFails(0));
    if hasRecord && msgs != [] {
      ReachedNext(c, held, p, consumed, log, missed, forwarded, multiset{}, FlushOk(0, msgs, 0, 0));
      ReachedNext(c, held, p, consumed, log, missed, forwarded, multiset{}, FlushFails(0));
      assert multiset{} + multiset(msgs) == multiset(msgs);
    } else {
      ReachedNext(c, held, p, consumed, log, missed, forwarded, multiset{}, PollIdle(0));
    }
  }

  lemma MessageFollows(c: Config, held: seq<Msg>, hasRecord: bool, events: seq<Seen>, k: nat, missed: nat,
                       forwarded: multiset<Msg>)
    requires c.broker.Kafka? && k < |events| && events[k].Message?
    requires AtPoll(c, held, hasRecord, events, k, None, missed, forwarded)
    ensures AtPoll(c, held, hasRecord, events, k + 1, None, if events[k].stored then missed else missed + 1, forwarded)
  {
    var msgs, consumed := Holds(held, hasRecord, events, k), Bodies(events, k);
    HoldsMore(held, hasRecord, events, k);
    PollsMessage(c, held, msgs, hasRecord, consumed, Stored(events, k), missed, forwarded, events[k].body,
                 events[k].stored);
    GoneGrows(held, consumed, msgs, forwarded + multiset([]), events[k].body);
  }

  lemma LullFollows(c: Config, held: seq<Msg>, hasRecord: bool, events: seq<Seen>, k: nat, missed: nat,
                    forwarded: multiset<Msg>) returns (forwarded': multiset<Msg>)
    requires c.broker.Kafka? && k < |events| && events[k].Lull?
    requires AtPoll(c, held, hasRecord, events, k, None, missed, forwarded)
    ensures AtPoll(c, held, hasRecord, events, k + 1, None, missed, forwarded')
  {
    var msgs := Holds(held, hasRecord, events, k);
    HoldsMore(held, hasRecord, events, k);
    PollsNothing(c, held, msgs, hasRecord, Bodies(events, k), Stored(events, k), missed, forwarded);
    forwarded' := if hasRecord && msgs != [] then forwarded + multiset(msgs) else forwarded;
    assert forwarded + multiset([]) == forwarded && forwarded' + multiset([]) == forwarded';
  }

  /** It goes through the first `k` polls like the loop. */
  lemma {:induction false} ReaderFollows(c: Config, held: seq<Msg>, hasRecord: bool, events: seq<Seen>, k: nat)
    returns (missed: nat, forwarded: multiset<Msg>)
    requires c.broker.Kafka? && k <= |events| && GoesOn(held, hasRecord, events, k)
    ensures AtPoll(c, held, hasRecord, events, k, None, missed, forwarded)
  {
    if k == 0 {
      missed, forwarded := 0, multiset{};
      Begins(c, held, hasRecord, events);
    } else {
      missed, forwarded := ReaderFollows(c, held, hasRecord, events, k - 1);
      if events[k - 1].Message? {
        MessageFollows(c, held, hasRecord, events, k - 1, missed, forwarded);
        missed := if events[k - 1].stored then missed else missed + 1;
      } else {
        forwarded := LullFollows(c, held, hasRecord, events, k - 1, missed, forwarded);
      }
    }
  }

  lemma GoneMoves(held: seq<Msg>, consumed: seq<Msg>, msgs: seq<Msg>, forwarded: multiset<Msg>)
    requires Gone(held, consumed, msgs, forwarded + multiset([]))
    ensures Gone(held, consumed, [], forwarded + multiset(msgs))
  {
    assert forwarded + multiset([]) == forwarded;
    assert forwarded + multiset(msgs) + multiset([]) == forwarded + multiset(msgs);
  }

  /** What `AtPoll` asks for, piece by piece. */
  lemma IsAtPoll(c: Config, held: seq<Msg>, hasRecord: bool, events: seq<Seen>, k: nat, err: Option<ReadError>,
                 msgs: seq<Msg>, consumed: seq<Msg>, log: seq<Msg>, dropped: seq<Msg>, missed: nat,
                 forwarded: multiset<Msg>)
    requires k <= |events| && msgs == Holds(held, hasRecord, events, k) && consumed == Bodies(events, k)
    requires log == Stored(events, k) && dropped == DroppedAt(held, events, k, err)
    requires Reached(c, held, Alone(PollReader(msgs, hasRecord, err), consumed, log, missed, forwarded,
                                    multiset(dropped)))
    requires Gone(held, consumed, msgs, forwarded + multiset(dropped)) && missed + |log| == |consumed|
    ensures AtPoll(c, held, hasRecord, events, k, err, missed, forwarded)
  {
  }

  lemma BrokerEndsReader(c: Config, held: seq<Msg>, hasRecord: bool, events: seq<Seen>, k: nat)
    returns (missed: nat, forwarded: multiset<Msg>)
    requires c.broker.Kafka? && k < |events| && GoesOn(held, hasRecord, events, k) && events[k].Stops?
    ensures AtPoll(c, held, hasRecord, events, k + 1, Some(BrokerFailed), missed, forwarded)
  {
    var msgs, consumed, log := Holds(held, hasRecord, events, k), Bodies(events, k), Stored(events, k);
    missed, forwarded := ReaderFollows(c, held, hasRecord, events, k);
    PollsNothing(c, held, msgs, hasRecord, consumed, log, missed, forwarded);
    BrokerErrorHere(held, hasRecord, events, k);
    IsAtPoll(c, held, hasRecord, events, k + 1, Some(BrokerFailed), msgs, consumed, log, [], missed, forwarded);
  }

  lemma FlushPollFails(c: Config, held: seq<Msg>, msgs: seq<Msg>, consumed: seq<Msg>, log: seq<Msg>, missed: nat,
                       forwarded: multiset<Msg>)
    requires c.broker.Kafka? && msgs != []
    requires Reached(c, held, Alone(PollReader(msgs, true, None), consumed, log, missed, forwarded, multiset([])))
    ensures Reached(c, held, Alone(PollReader([], true, Some(SubmitFailed)), consumed, log, missed, forwarded,
                                   multiset(msgs)))
  {
    PollsNothing(c, held, msgs, true, consumed, log, missed, forwarded);
  }

  lemma FlushEndsReader(c: Config, held: seq<Msg>, events: seq<Seen>, k: nat)
    returns (missed: nat, forwarded: multiset<Msg>)
    requires c.broker.Kafka? && k < |events| && GoesOn(held, true, events, k) && events[k] == Lull(false)
    requires Unflushed(held, events, k) != []
    ensures AtPoll(c, held, true, events, k + 1, Some(SubmitFailed), missed, forwarded)
  {
    var msgs, consumed, log := Unflushed(held, events, k), Bodies(events, k), Stored(events, k);
    missed, forwarded := ReaderFollows(c, held, true, events, k);
    FlushPollFails(c, held, msgs, consumed, log, missed, forwarded);
    FlushFailsHere(held, events, k);
    GoneMoves(held, consumed, msgs, forwarded);
    IsAtPoll(c, held, true, events, k + 1, Some(SubmitFailed), [], consumed, log, msgs, missed, forwarded);
  }

  lemma PollEndsReader(c: Config, held: seq<Msg>, hasRecord: bool, events: seq<Seen>, k: nat, err: Option<ReadError>)
    returns (missed: nat, forwarded: multiset<Msg>)
    requires c.broker.Kafka? && EndsBy(held, hasRecord, events, k, err)
    ensures AtPoll(c, held, hasRecord, events, k, err, missed, forwarded)
  {
    if err == None {
      missed, forwarded := ReaderFollows(c, held, hasRecord, events, k);
    } else if err == Some(BrokerFailed) {
      missed, forwarded := BrokerEndsReader(c, held, hasRecord, events, k - 1);
    } else {
      missed, forwarded := FlushEndsReader(c, held, events, k - 1);
    }
  }

  /** The machine's reader and the loop agree: same messages, batches, drops, log and error. */
  ghost predicate Agrees(after: In, msgs: seq<Msg>, consumed: seq<Msg>, log: seq<Msg>, batches: seq<seq<Msg>>,
                         dropped: seq<Msg>, err: Option<ReadError>) {
    && after.readers.Keys == {0}
    && after.readers[0].buf == msgs && after.consumed == consumed && after.log == log
    && after.missed + |log| == |consumed|
    && after.forwarded == multiset(Flatten(batches)) && after.lost == multiset(dropped)
    && (after.readers[0].failed <==> err.Some?)
    && after.readers[0].loop.Ended? && after.readers[0].expired
  }

  /** The deadline passes, the goroutine leaves its loop, and `read` has joined it. */
  lemma ReaderJoins(c: Config, held: seq<Msg>, msgs: seq<Msg>, hasRecord: bool, err: Option<ReadError>,
                    consumed: seq<Msg>, log: seq<Msg>, missed: nat, forwarded: multiset<Msg>, lost: multiset<Msg>)
    returns (after: In)
    requires c.broker.Kafka?
    requires Reached(c, held, Alone(PollReader(msgs, hasRecord, err), consumed, log, missed, forwarded, lost))
    ensures after == Alone(Reader(msgs, Ended, false, true, err.Some?, false, hasRecord), consumed, log, missed,
                           forwarded, lost)
    ensures Reached(c, held, after)
  {
    var r := PollReader(msgs, hasRecord, err);
    ReachedNext(c, held, r, consumed, log, missed, forwarded, lost, Deadline(0));
    r := r.(run := false, expired := true);
    ReachedNext(c, held, r, consumed, log, missed, forwarded, lost, LoopExits(0));
    after := Alone(r.(loop := Ended), consumed, log, missed, forwarded, lost);
  }

  lemma ForwardedIsFlushed(held: seq<Msg>, consumed: seq<Msg>, msgs: seq<Msg>, batches: seq<seq<Msg>>,
                           dropped: seq<Msg>, forwarded: multiset<Msg>)
    requires Gone(held, consumed, msgs, forwarded + multiset(dropped))
    requires Accounts(held, consumed, batches, dropped, msgs)
    ensures forwarded == multiset(Flatten(batches))
  {
    GoneIsFlushed(held, consumed, msgs, batches, dropped, forwarded + multiset(dropped));
    Cancel(forwarded, multiset(Flatten(batches)), multiset(dropped));
  }

  /** The end of the reader's loop, if it is the loop's: what it says of the machine. */
  lemma EndAgrees(r: Reader, msgs: seq<Msg>, hasRecord: bool, consumed: seq<Msg>, log: seq<Msg>, missed: nat,
                  batches: seq<seq<Msg>>, dropped: seq<Msg>, err: Option<ReadError>)
    requires missed + |log| == |consumed| && r == Reader(msgs, Ended, false, true, err.Some?, false, hasRecord)
    ensures Agrees(Alone(r, consumed, log, missed, multiset(Flatten(batches)), multiset(dropped)), msgs, consumed, log,
                   batches, dropped, err)
  {
  }

  lemma ReaderAgrees(c: Config, held: seq<Msg>, hasRecord: bool, events: seq<Seen>, k: nat, err: Option<ReadError>,
                     batches: seq<seq<Msg>>) returns (after: In)
    requires c.broker.Kafka? && EndsBy(held, hasRecord, events, k, err)
    requires Accounts(held, Bodies(events, k), batches, DroppedAt(held, events, k, err),
                      Holds(held, hasRecord, events, k))
    ensures Reached(c, held, after)
    ensures Agrees(after, Holds(held, hasRecord, events, k), Bodies(events, k), Stored(events, k), batches,
                   DroppedAt(held, events, k, err), err)
  {
    var missed, forwarded := PollEndsReader(c, held, hasRecord, events, k, err);
    var msgs, dropped := Holds(held, hasRecord, events, k), DroppedAt(held, events, k, err);
    ForwardedIsFlushed(held, Bodies(events, k), msgs, batches, dropped, forwarded);
    after := ReaderJoins(c, held, msgs, hasRecord, err, Bodies(events, k), Stored(events, k), missed, forwarded,
                         multiset(dropped));
    EndAgrees(after.readers[0], msgs, hasRecord, Bodies(events, k), Stored(events, k), missed, batches, dropped, err);
  }

  lemma ReaderFailsAtOnce(c: Config, held: seq<Msg>, err: ReadError) returns (after: In)
    ensures Reached(c, held, after) && Agrees(after, held, [], [], [], [], Some(err))
  {
    ReachedAtOnce(c, held);
    ReachedNext(c, held, NewReader().(buf := held), [], [], 0, multiset{}, multiset{}, BeginFails(0));
    after := Alone(ReaderNext(c, NewReader().(buf := held), BeginFails(0)), [], [], 0, multiset{}, multiset{});
  }

  class ReadTask {
    var msgs: seq<Msg>

    constructor ()
      ensures msgs == []
    {
      msgs := [];
    }

    /**
     * The poll goroutine: `events` are the polls made before the deadline clears `run`. Returns what was consumed,
     * the batches submitted, the batch that was cleared although its submission failed, the read log and the error;
     * `k` is the number of polls.
     */
    method PollLoop(hasRecord: bool, events: seq<Seen>)
      returns (consumed: seq<Msg>, batches: seq<seq<Msg>>, dropped: seq<Msg>, log: seq<Msg>,
               err: Option<ReadError>, k: nat)
      modifies this
      ensures EndsBy(old(msgs), hasRecord, events, k, err)
      ensures consumed == Bodies(events, k) && log == Stored(events, k)
      ensures msgs == Holds(old(msgs), hasRecord, events, k) && dropped == DroppedAt(old(msgs), events, k, err)
      ensures Accounts(old(msgs), consumed, batches, dropped, msgs)
      ensures NoneEmpty(batches)
      ensures !hasRecord ==> batches == []
    {
      consumed, batches, dropped, log, err, k := [], [], [], [], None, 0;
      NothingYet(msgs);
      assert msgs + [] == msgs;
      var run := true;
      while run && k < |events|
        invariant 0 <= k <= |events| && consumed == Bodies(events, k) && log == Stored(events, k)
        invariant Accounts(old(msgs), consumed, batches, dropped, msgs)
        invariant NoneEmpty(batches)
        invariant msgs == Holds(old(msgs), hasRecord, events, k) && (!hasRecord ==> batches == [])
        invariant run <==> err == None
        invariant run ==> GoesOn(old(msgs), hasRecord, events, k) && dropped == []
        invariant !run ==> EndsBy(old(msgs), hasRecord, events, k, err)
        invariant !run ==> dropped == DroppedAt(old(msgs), events, k, err)
      {
        match events[k] {
          case Message(body, stored) =>
            GoesOnMore(old(msgs), hasRecord, events, k);
            MessageJoins(old(msgs), consumed, batches, dropped, msgs, body);
            msgs := msgs + [body];
            consumed := consumed + [body];
            if stored {
              log := log + [body];
            }
            // the source tests `err`, which is always nil here, instead of the error of the log write
            if err != None {
              err := Some(DatabaseFailed);
              run := false;
            }
          case Stops =>
            BrokerErrorHere(old(msgs), hasRecord, events, k);
            err := Some(BrokerFailed);
            run := false;
          case Lull(submitted) =>
            if hasRecord && |msgs| > 0 {
              BatchLeaves(old(msgs), consumed, batches, msgs);
              if submitted {
                GoesOnMore(old(msgs), hasRecord, events, k);
                batches := batches + [msgs];
              } else {
                FlushFailsHere(old(msgs), events, k);
                dropped := msgs;
                err := Some(SubmitFailed);
                run := false;
              }
              msgs := [];
            } else {
              GoesOnMore(old(msgs), hasRecord, events, k);
            }
        }
        k := k + 1;
      }
    }

    /**
     * `read`: the consumer is created and subscribed, the record is looked up, and the goroutine runs and is joined.
     */
    method Read(creates: bool, subscribes: bool, record: Lookup, events: seq<Seen>, ghost c: Config)
      returns (consumed: seq<Msg>, batches: seq<seq<Msg>>, dropped: seq<Msg>, log: seq<Msg>,
               err: Option<ReadError>, k: nat, ghost after: In)
      requires c.broker.Kafka?
      modifies this
      ensures k <= |events| && consumed == Bodies(events, k) && log == Stored(events, k)
      ensures Subseq(log, consumed)
      ensures Accounts(old(msgs), consumed, batches, dropped, msgs)
      ensures NoneEmpty(batches)
      ensures record != HasRecord ==> batches == [] && dropped == [] && msgs == old(msgs) + consumed
      ensures dropped != [] <==> err == Some(SubmitFailed)
      ensures record == HasRecord ==> msgs == Unflushed(old(msgs), events, k)
      ensures record == HasRecord ==> (err == Some(SubmitFailed) <==> !EveryFlushWorks(old(msgs), events, k))
      ensures err == Some(SubmitFailed) ==>
                && record == HasRecord && 0 < k && events[k - 1] == Lull(false)
                && msgs == [] && dropped == Unflushed(old(msgs), events, k - 1)
      ensures err == Some(BrokerFailed) <==> 0 < k && events[k - 1].Stops?
      ensures !creates <==> err == Some(ConsumerFailed)
      ensures creates ==> (!subscribes <==> err == Some(SubscribeFailed))
      ensures creates && subscribes ==> (record == LookupError <==> err == Some(LookupFailed))
      ensures err != Some(DatabaseFailed)
      ensures err == None ==> k == |events|
      // the machine's reader reaches a state in which it has done the same
      ensures Reached(c, old(msgs), after) && Agrees(after, msgs, consumed, log, batches, dropped, err)
    {
      if !creates || !subscribes || record == LookupError {
        err := Some(if !creates then ConsumerFailed else if !subscribes then SubscribeFailed else LookupFailed);
        consumed, batches, dropped, log, k := [], [], [], [], 0;
        NothingYet(msgs);
        assert msgs + [] == msgs;
        after := ReaderFailsAtOnce(c, msgs, err.value);
        return;
      }
      consumed, batches, dropped, log, err, k, after := PollAndJoin(record == HasRecord, events, c);
    }

    /** The goroutine is started and joined. */
    method PollAndJoin(hasRecord: bool, events: seq<Seen>, ghost c: Config)
      returns (consumed: seq<Msg>, batches: seq<seq<Msg>>, dropped: seq<Msg>, log: seq<Msg>,
               err: Option<ReadError>, k: nat, ghost after: In)
      requires c.broker.Kafka?
      modifies this
      ensures k <= |events| && consumed == Bodies(events, k) && log == Stored(events, k) && Subseq(log, consumed)
      ensures Accounts(old(msgs), consumed, batches, dropped, msgs)
      ensures NoneEmpty(batches)
      ensures if hasRecord then msgs == Unflushed(old(msgs), events, k)
              else batches == [] && dropped == [] && msgs == old(msgs) + consumed
      ensures err in {None, Some(BrokerFailed), Some(SubmitFailed)} && (err == None ==> k == |events|)
      ensures dropped != [] <==> err == Some(SubmitFailed)
      ensures hasRecord ==> (err == Some(SubmitFailed) <==> !EveryFlushWorks(old(msgs), events, k))
      ensures err == Some(SubmitFailed) ==>
                && hasRecord && 0 < k && events[k - 1] == Lull(false)
                && msgs == [] && dropped == Unflushed(old(msgs), events, k - 1)
      ensures err == Some(BrokerFailed) <==> 0 < k && events[k - 1].Stops?
      ensures Reached(c, old(msgs), after) && Agrees(after, msgs, consumed, log, batches, dropped, err)
    {
      consumed, batches, dropped, log, err, k := PollLoop(hasRecord, events);
      StoredIsSubseq(events, k);
      EndsByMeans(old(msgs), hasRecord, events, k, err);
      after := ReaderAgrees(c, old(msgs), hasRecord, events, k, err, batches);
    }
  }

  /** What the wait for a delivery report yields: the deadline, or a report with its error flag and log outcome. */
  datatype Delivery = Deadlined | Report(value: Msg, failed: bool, stored: bool)

  datatype WriteError = ProducerFailed | ProduceFailed | Timeout | DeliveryFailed | WriteLogFailed

  /** The messages of the first `n` reports, in order of delivery. */
  function Values(ds: seq<Delivery>, n: nat): seq<Msg>
    requires n <= |ds|
  {
    if n == 0 then []
    else if ds[n - 1].Report? then Values(ds, n - 1) + [ds[n - 1].value]
    else Values(ds, n - 1)
  }

  predicate Delivered(d: Delivery) { d.Report? && !d.failed && d.stored }

  /** The first loop of `write`. */
  method Produce(msgs: seq<Msg>, accepted: seq<bool>, ghost c: Config)
    returns (produced: seq<Msg>, ok: bool, ghost steps: seq<Step>)
    requires |accepted| == |msgs| && c.outBroker.Kafka?
    ensures produced <= msgs && (ok <==> forall i :: 0 <= i < |msgs| ==> accepted[i])
    ensures if ok then produced == msgs else |produced| < |msgs| && !accepted[|produced|]
    ensures JobRuns(c, Sole(NewJob(msgs), []), steps, Sole(Job(msgs[|produced|..], produced, false), []))
  {
    produced, steps := [], [];
    ghost var start := Sole(NewJob(msgs), []);
    for i := 0 to |msgs|
      invariant produced == msgs[..i] && forall j :: 0 <= j < i ==> accepted[j]
      invariant JobRuns(c, start, steps, Sole(Job(msgs[i..], msgs[..i], false), []))
    {
      if !accepted[i] { return produced, false, steps; }
      PublishNext(c, msgs, i);
      JobSnoc(c, start, steps, Sole(Job(msgs[i..], msgs[..i], false), []), Publish(0));
      steps := steps + [Publish(0)];
      produced := produced + [msgs[i]];
    }
    ok := true;
  }

  /**
   * `write`: produce every message, then log one delivery per message; no more deliveries mean a timeout. The
   * machine's writer takes one step for each message produced.
   */
  method Write(connects: bool, msgs: seq<Msg>, accepted: seq<bool>, deliveries: seq<Delivery>, ghost c: Config)
    returns (produced: seq<Msg>, logged: seq<Msg>, err: Option<WriteError>, ghost steps: seq<Step>)
    requires |accepted| == |msgs| && c.outBroker.Kafka?
    ensures produced <= msgs
    ensures !connects <==> err == Some(ProducerFailed)
    ensures !connects ==> produced == logged == []
    ensures connects ==> (err != Some(ProduceFailed) <==> forall i :: 0 <= i < |msgs| ==> accepted[i])
    ensures connects && err != Some(ProduceFailed) ==> produced == msgs
    ensures err == Some(ProduceFailed) ==> logged == [] && |produced| < |msgs| && !accepted[|produced|]
    ensures |logged| <= |deliveries| && (forall i :: 0 <= i < |logged| ==> Delivered(deliveries[i]))
    ensures logged == Values(deliveries, |logged|)
    ensures err == None ==> |logged| == |msgs|
    ensures connects && err != None ==> |logged| < |msgs|
    ensures err in {Some(Timeout), Some(DeliveryFailed), Some(WriteLogFailed)} && |logged| < |deliveries| ==>
              !Delivered(deliveries[|logged|])
    ensures JobRuns(c, Sole(NewJob(msgs), []), steps, Sole(Job(msgs[|produced|..], produced, false), []))
  {
    produced, logged, err, steps := [], [], None, [];
    if !connects {
      assert JobRuns(c, Sole(NewJob(msgs), []), steps, Sole(NewJob(msgs), []));
      err := Some(ProducerFailed);
      return;
    }
    var ok;
    produced, ok, steps := Produce(msgs, accepted, c);
    if !ok {
      err := Some(ProduceFailed);
      return;
    }
    for i := 0 to |msgs|
      invariant |logged| == i <= |deliveries| && (forall j :: 0 <= j < i ==> Delivered(deliveries[j]))
      invariant logged == Values(deliveries, i)
    {
      if i == |deliveries| || deliveries[i].Deadlined? {
        err := Some(Timeout);
        return;
      }
      if deliveries[i].failed {
        err := Some(DeliveryFailed);
        return;
      }
      if !deliveries[i].stored {
        err := Some(WriteLogFailed);
        return;
      }
      logged := logged + [deliveries[i].value];
    }
  }

  lemma {:induction false} EarlierReports(ds: seq<Delivery>, n: nat, k: nat)
    requires n <= k <= |ds|
    ensures multiset(Values(ds, n)) <= multiset(Values(ds, k))
    decreases k
  {
    if n < k { EarlierReports(ds, n, k - 1); }
  }

  /**
   * If no message is reported more often than it was produced, whatever the outcome of `Write`, nothing else is in
   * the log, and nothing twice; and if as many are logged as were produced, the log is a permutation of them.
   */
  lemma LoggedWereProduced(produced: seq<Msg>, deliveries: seq<Delivery>, n: nat)
    requires n <= |deliveries| && multiset(Values(deliveries, |deliveries|)) <= multiset(produced)
    ensures multiset(Values(deliveries, n)) <= multiset(produced)
    ensures |Values(deliveries, n)| == |produced| ==> multiset(Values(deliveries, n)) == multiset(produced)
  {
    EarlierReports(deliveries, n, |deliveries|);
    if |Values(deliveries, n)| == |produced| { SameSize(multiset(Values(deliveries, n)), multiset(produced)); }
  }
}
