/** Task ids: how tasks build them, how pool messages are looked up by them, and what they determine. */
module TaskIds {
  import opened Basics

  datatype Broker = RabbitMQ | Kafka {
    /** `GetBroker`. */
    function Name(): string { match this case RabbitMQ => "rabbitmq" case Kafka => "kafka" }
  }

  datatype Kind = Read | Write {
    function Suffix(): string { match this case Read => "read" case Write => "write" }
  }

  datatype Pool = Pool(broker: Broker, name: string, queue: string)

  /** `getTaskId` of the base task: the broker's own literal, the pool's name and its queue or topic. */
  function BaseId(p: Pool): string {
    match p.broker
    case RabbitMQ => "rabbitmq:" + p.name + ":" + p.queue
    case Kafka => "kafka:" + p.name + ":" + p.queue
  }

  /** `getTaskId` of a read or write task. */
  function TaskIdOf(p: Pool, k: Kind): string { BaseId(p) + ":" + k.Suffix() }

  /** A row of the message-pool collection, as `AddMessagePool` fills it. */
  datatype Row = Row(broker: string, name: string, queue: string)

  function RowOf(p: Pool): Row { Row(p.broker.Name(), p.name, p.queue) }

  /** The id by which `GetMessagePoolReadMessages` and `GetMessagePoolWriteMessages` search. */
  function LookupId(r: Row, k: Kind): string { r.broker + ":" + r.name + ":" + r.queue + ":" + k.Suffix() }

  predicate ColonFree(s: string) { ':' !in s }

  // ----- cutting at a colon -----

  /** A colon-free part, a colon and a rest can be taken apart in one way only. */
  lemma FirstColon(a: string, x: string, b: string, y: string)
    requires ColonFree(a) && ColonFree(b) && a + ":" + x == b + ":" + y
    ensures a == b && x == y
  {
    var s := a + ":" + x;
    assert s[|a|] == ':' && s[|b|] == ':';
    assert forall i :: 0 <= i < |a| ==> s[i] == a[i] && s[i] != ':';
    assert forall i :: 0 <= i < |b| ==> s[i] == b[i] && s[i] != ':';
    assert |a| == |b|;
    assert a == s[..|a|] && b == s[..|b|];
    assert x == s[|a| + 1..] && y == s[|b| + 1..];
  }

  /** A rest, a colon and one of the two suffixes can be taken apart in one way only. */
  lemma LastColon(x: string, j: Kind, y: string, k: Kind)
    requires x + ":" + j.Suffix() == y + ":" + k.Suffix()
    ensures x == y && j == k
  {
    var s, t := x + ":" + j.Suffix(), y + ":" + k.Suffix();
    assert s[|s| - 1] == if j.Read? then 'd' else 'e';
    assert t[|t| - 1] == if k.Read? then 'd' else 'e';
    assert x == s[..|s| - |j.Suffix()| - 1] && y == t[..|t| - |k.Suffix()| - 1];
  }

  lemma BaseIdParts(p: Pool)
    ensures BaseId(p) == p.broker.Name() + ":" + (p.name + ":" + p.queue) && ColonFree(p.broker.Name())
  {
    match p.broker {
      case RabbitMQ => assert "rabbitmq:" == "rabbitmq" + ":";
      case Kafka => assert "kafka:" == "kafka" + ":";
    }
  }

  lemma BrokerNamesDiffer(b: Broker, c: Broker)
    requires b.Name() == c.Name()
    ensures b == c
  {
    assert |b.Name()| == if b.RabbitMQ? then 8 else 5;
  }

  /**
   * Two tasks share an id exactly when they are of the same kind, on the same broker, and their names and queues
   * cannot be told apart once joined by a colon.
   */
  lemma SameIdIff(p: Pool, j: Kind, q: Pool, k: Kind)
    ensures TaskIdOf(p, j) == TaskIdOf(q, k)
       <==> j == k && p.broker == q.broker && p.name + ":" + p.queue == q.name + ":" + q.queue
  {
    BaseIdParts(p);
    BaseIdParts(q);
    if TaskIdOf(p, j) == TaskIdOf(q, k) {
      LastColon(BaseId(p), j, BaseId(q), k);
      FirstColon(p.broker.Name(), p.name + ":" + p.queue, q.broker.Name(), q.name + ":" + q.queue);
      BrokerNamesDiffer(p.broker, q.broker);
    }
  }

  /** With colon-free pool names the id determines broker, pool, queue and kind, whatever the queue is called. */
  lemma IdDeterminesTask(p: Pool, j: Kind, q: Pool, k: Kind)
    requires ColonFree(p.name) && ColonFree(q.name)
    ensures TaskIdOf(p, j) == TaskIdOf(q, k) <==> p == q && j == k
  {
    SameIdIff(p, j, q, k);
    if TaskIdOf(p, j) == TaskIdOf(q, k) {
      FirstColon(p.name, p.queue, q.name, q.queue);
    }
  }

  /** A colon in a pool name is enough for two different pools to share their ids. */
  lemma ColonsCollide(k: Kind)
    ensures TaskIdOf(Pool(RabbitMQ, "a:b", "c"), k) == TaskIdOf(Pool(RabbitMQ, "a", "b:c"), k)
  {
    assert "a:b" + ":" + "c" == "a" + ":" + "b:c";
    SameIdIff(Pool(RabbitMQ, "a:b", "c"), k, Pool(RabbitMQ, "a", "b:c"), k);
  }

  /** Tasks log under the id by which their pool's messages are looked up. */
  lemma LookupAgrees(p: Pool, k: Kind)
    ensures LookupId(RowOf(p), k) == TaskIdOf(p, k)
  {
    BaseIdParts(p);
    var b := p.broker.Name();
    assert b + ":" + p.name + ":" + p.queue == b + ":" + (p.name + ":" + p.queue);
    assert b + ":" + p.name + ":" + p.queue + ":" + k.Suffix() == BaseId(p) + ":" + k.Suffix();
  }

  // ----- the message log -----

  datatype Entry = Entry(pool: Pool, kind: Kind, message: string)

  /** What `GetTaskMessages` returns for an id: the messages stored under it. */
  function Under(log: seq<Entry>, id: string): seq<string> {
    if log == [] then []
    else Under(log[..|log| - 1], id) +
         var e := log[|log| - 1]; if TaskIdOf(e.pool, e.kind) == id then [e.message] else []
  }

  /** The messages that tasks of one kind on one pool stored. */
  function Of(log: seq<Entry>, p: Pool, k: Kind): seq<string> {
    if log == [] then []
    else Of(log[..|log| - 1], p, k) +
         var e := log[|log| - 1]; if e.pool == p && e.kind == k then [e.message] else []
  }

  /** With colon-free pool names looking up a pool's messages finds exactly those its own tasks stored, in order. */
  lemma {:induction false} LookupFindsOwnMessages(log: seq<Entry>, p: Pool, k: Kind)
    requires ColonFree(p.name) && forall e :: e in log ==> ColonFree(e.pool.name)
    ensures Under(log, LookupId(RowOf(p), k)) == Of(log, p, k)
  {
    if log != [] {
      var e := log[|log| - 1];
      LookupFindsOwnMessages(log[..|log| - 1], p, k);
      LookupAgrees(p, k);
      IdDeterminesTask(e.pool, e.kind, p, k);
    }
  }
}
