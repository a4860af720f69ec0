/**
 * What the read loops of both brokers make of what they receive (internal/brokers/rabbitmq.go and
 * internal/brokers/kafka.go), and the part of the pair's machine that one read or write loop is.
 */
module ReadLoops {
  import opened Basics
  import opened EsbPipeline

  /**
   * What a loop meets next: a message, with the outcome of its log write; a lull, with the outcome of `submitToESB`
   * if the batch goes on; or what ends the loop. For RabbitMQ these are a delivery, a tick and the end of the
   * context, for Kafka a polled message, a poll that brings nothing and a broker error. A RabbitMQ channel that was
   * closed yields empty messages for as long as the loop looks.
   */
  datatype Seen = Message(body: Msg, stored: bool) | Lull(submitted: bool) | Stops

  /** The answer of `GetESBRecord`. */
  datatype Lookup = HasRecord | NoSuchRecord | LookupError

  // ----- the first `k` events -----

  /** The messages received. */
  function Bodies(events: seq<Seen>, k: nat): seq<Msg>
    requires k <= |events|
  {
    if k == 0 then []
    else if events[k - 1].Message? then Bodies(events, k - 1) + [events[k - 1].body]
    else Bodies(events, k - 1)
  }

  /** The messages received whose log write succeeds. */
  function Stored(events: seq<Seen>, k: nat): seq<Msg>
    requires k <= |events|
  {
    if k == 0 then []
    else if events[k - 1].Message? && events[k - 1].stored then Stored(events, k - 1) + [events[k - 1].body]
    else Stored(events, k - 1)
  }

  /** What has not been handed on: the messages since the last lull, on top of `held` before any. */
  function Unflushed(held: seq<Msg>, events: seq<Seen>, k: nat): seq<Msg>
    requires k <= |events|
  {
    if k == 0 then held
    else match events[k - 1]
      case Message(body, _) => Unflushed(held, events, k - 1) + [body]
      case Lull(_) => []
      case Stops => Unflushed(held, events, k - 1)
  }

  /** No lull met waiting messages and a failing `submitToESB`. */
  predicate EveryFlushWorks(held: seq<Msg>, events: seq<Seen>, k: nat)
    requires k <= |events|
  {
    k == 0 || (EveryFlushWorks(held, events, k - 1)
               && (events[k - 1] == Lull(false) ==> Unflushed(held, events, k - 1) == []))
  }

  /** What a loop holds: without a record nothing is ever handed on. */
  function Holds(held: seq<Msg>, hasRecord: bool, events: seq<Seen>, k: nat): seq<Msg>
    requires k <= |events|
  {
    if hasRecord then Unflushed(held, events, k) else held + Bodies(events, k)
  }

  lemma HoldsMore(held: seq<Msg>, hasRecord: bool, events: seq<Seen>, k: nat)
    requires k < |events|
    ensures Holds(held, hasRecord, events, k + 1)
         == match events[k]
            case Message(body, _) => Holds(held, hasRecord, events, k) + [body]
            case Lull(_) => if hasRecord then [] else Holds(held, hasRecord, events, k)
            case Stops => Holds(held, hasRecord, events, k)
  {
    if events[k].Message? { Associative(held, Bodies(events, k), [events[k].body]); }
  }

  lemma {:induction false} StoredIsSubseq(events: seq<Seen>, k: nat)
    requires k <= |events|
    ensures Subseq(Stored(events, k), Bodies(events, k))
  {
    if k > 0 {
      StoredIsSubseq(events, k - 1);
      var e := events[k - 1];
      if e.Message? {
        if e.stored {
          SubseqSnocBoth(Stored(events, k - 1), Bodies(events, k - 1), e.body);
        } else {
          SubseqSnocRight(Stored(events, k - 1), Bodies(events, k - 1), e.body);
        }
      }
    }
  }

  /** What came in, on top of what was held, went on in `batches`, was dropped, or is still there, in this order. */
  ghost predicate Accounts(held: seq<Msg>, consumed: seq<Msg>, batches: seq<seq<Msg>>, dropped: seq<Msg>,
                           msgs: seq<Msg>) {
    Flatten(batches) + dropped + msgs == held + consumed
  }

  predicate NoneEmpty(batches: seq<seq<Msg>>) { forall i :: 0 <= i < |batches| ==> batches[i] != [] }

  lemma NothingYet(held: seq<Msg>)
    ensures Accounts(held, [], [], [], held)
  {
  }

  lemma MessageJoins(held: seq<Msg>, consumed: seq<Msg>, batches: seq<seq<Msg>>, dropped: seq<Msg>, msgs: seq<Msg>,
                     m: Msg)
    requires Accounts(held, consumed, batches, dropped, msgs)
    ensures Accounts(held, consumed + [m], batches, dropped, msgs + [m])
  {
    Associative(Flatten(batches) + dropped, msgs, [m]);
    Associative(held, consumed, [m]);
  }

  lemma BatchLeaves(held: seq<Msg>, consumed: seq<Msg>, batches: seq<seq<Msg>>, msgs: seq<Msg>)
    requires Accounts(held, consumed, batches, [], msgs)
    ensures Accounts(held, consumed, batches + [msgs], [], [])
    ensures Accounts(held, consumed, batches, msgs, [])
  {
    FlattenSnoc(batches, msgs);
  }

  // ----- one read loop as a part of the machine -----

  /** The in-side with the one reader 0, and what it has done so far. */
  function Alone(r: Reader, consumed: seq<Msg>, log: seq<Msg>, missed: nat, forwarded: multiset<Msg>,
                 lost: multiset<Msg>): In {
    In(map[0 := r], consumed, log, missed, 0, forwarded, lost)
  }

  /** Reader 0 of the machine takes these steps. */
  ghost predicate LoopRuns(c: Config, i: In, es: seq<Step>, i': In)
    decreases |es|
  {
    if es == [] then i' == i
    else 0 in i.readers && ReaderMay(c, i.readers[0], es[0]) && LoopRuns(c, InNext(c, i, 0, es[0]), es[1..], i')
  }

  lemma {:induction false} LoopSnoc(c: Config, i: In, es: seq<Step>, m: In, e: Step)
    requires LoopRuns(c, i, es, m) && 0 in m.readers && ReaderMay(c, m.readers[0], e)
    ensures LoopRuns(c, i, es + [e], InNext(c, m, 0, e))
    decreases |es|
  {
    if es == [] {
      assert es + [e] == [e];
    } else {
      LoopSnoc(c, InNext(c, i, 0, es[0]), es[1..], m, e);
      assert (es + [e])[0] == es[0] && (es + [e])[1..] == es[1..] + [e];
    }
  }

  /** A reader that has not begun, with what its task holds already. */
  function Before(held: seq<Msg>): In {
    Alone(NewReader().(buf := held), [], [], 0, multiset{}, multiset{})
  }

  /** The machine's reader, begun with a task that holds `held`, can bring the in-side to `i`. */
  ghost predicate Reached(c: Config, held: seq<Msg>, i: In) { exists es :: LoopRuns(c, Before(held), es, i) }

  lemma ReachedAtOnce(c: Config, held: seq<Msg>)
    ensures Reached(c, held, Before(held))
  {
    assert LoopRuns(c, Before(held), [], Before(held));
  }

  /** One more step. */
  lemma ReachedNext(c: Config, held: seq<Msg>, r: Reader, consumed: seq<Msg>, log: seq<Msg>, missed: nat,
                    forwarded: multiset<Msg>, lost: multiset<Msg>, e: Step)
    requires Reached(c, held, Alone(r, consumed, log, missed, forwarded, lost))
    requires ReaderMay(c, r, e) && !e.ReadReturns?
    ensures Reached(c, held,
                    Alone(ReaderNext(c, r, e),
                          if e.Deliver? then consumed + [e.m] else consumed,
                          if e.LogMessage? && e.ok then log + [r.loop.m] else log,
                          if e.LogMessage? && !e.ok then missed + 1 else missed,
                          if e.FlushOk? then forwarded + multiset(r.buf) else forwarded,
                          if e.FlushFails? && c.broker.Kafka? then lost + multiset(r.buf) else lost))
  {
    var a := Alone(r, consumed, log, missed, forwarded, lost);
    var es :| LoopRuns(c, Before(held), es, a);
    LoopSnoc(c, Before(held), es, a, e);
    assert a.readers[0 := ReaderNext(c, r, e)] == map[0 := ReaderNext(c, r, e)];
  }

  /** What has gone on is what came in less what is held. */
  ghost predicate Gone(held: seq<Msg>, consumed: seq<Msg>, msgs: seq<Msg>, gone: multiset<Msg>) {
    gone + multiset(msgs) == multiset(held + consumed)
  }

  lemma GoneGrows(held: seq<Msg>, consumed: seq<Msg>, msgs: seq<Msg>, gone: multiset<Msg>, m: Msg)
    requires Gone(held, consumed, msgs, gone)
    ensures Gone(held, consumed + [m], msgs + [m], gone)
  {
    Associative(held, consumed, [m]);
    assert multiset((held + consumed) + [m]) == multiset(held + consumed) + multiset{m};
  }

  /** What has gone on are the batches, and what was dropped. */
  lemma GoneIsFlushed(held: seq<Msg>, consumed: seq<Msg>, msgs: seq<Msg>, batches: seq<seq<Msg>>, dropped: seq<Msg>,
                      gone: multiset<Msg>)
    requires Gone(held, consumed, msgs, gone) && Accounts(held, consumed, batches, dropped, msgs)
    ensures gone == multiset(Flatten(batches)) + multiset(dropped)
  {
    Cancel(gone, multiset(Flatten(batches) + dropped), multiset(msgs));
  }

  // ----- one write loop as a part of the machine -----

  /** The out-side with the one writer 0. */
  function Sole(j: Job, published: seq<Msg>): Out { Out(map[0 := j], multiset{}, published, multiset{}) }

  /** Writer 0 of the machine takes these steps. */
  ghost predicate JobRuns(c: Config, o: Out, es: seq<Step>, o': Out)
    decreases |es|
  {
    if es == [] then o' == o
    else 0 in o.writing && WriterMay(c, o.writing[0], es[0]) && JobRuns(c, WriterMoves(c, o, 0, es[0]), es[1..], o')
  }

  lemma {:induction false} JobSnoc(c: Config, o: Out, es: seq<Step>, m: Out, e: Step)
    requires JobRuns(c, o, es, m) && 0 in m.writing && WriterMay(c, m.writing[0], e)
    ensures JobRuns(c, o, es + [e], WriterMoves(c, m, 0, e))
    decreases |es|
  {
    if es == [] {
      assert es + [e] == [e];
    } else {
      JobSnoc(c, WriterMoves(c, o, 0, es[0]), es[1..], m, e);
      assert (es + [e])[0] == es[0] && (es + [e])[1..] == es[1..] + [e];
    }
  }

  /** Publishing the next message: RabbitMQ has it then, Kafka's producer has taken it. */
  lemma PublishNext(c: Config, msgs: seq<Msg>, k: nat)
    requires k < |msgs|
    ensures var o := if c.outBroker.RabbitMQ? then Sole(Job(msgs[k..], [], false), msgs[..k])
                     else Sole(Job(msgs[k..], msgs[..k], false), []);
            && WriterMay(c, o.writing[0], Publish(0))
            && WriterMoves(c, o, 0, Publish(0))
                 == if c.outBroker.RabbitMQ? then Sole(Job(msgs[k + 1..], [], false), msgs[..k + 1])
                    else Sole(Job(msgs[k + 1..], msgs[..k + 1], false), [])
  {
    assert msgs[k..][0] == msgs[k] && msgs[k..][1..] == msgs[k + 1..] && msgs[..k] + [msgs[k]] == msgs[..k + 1];
  }
}
