/**
 * A stored collection with a cache in front of it, under a readers/writer lock: the common pattern of
 * internal/database/routes.go, esb_records.go and message_pools.go, with internal/util/guarded_run.go. The store
 * is a map with a unique key; the cache may drop any entry at any time and is filled on a miss under the read lock.
 */
module CachedCollection {
  import opened Basics

  type Tid = nat

  datatype Op<K, V> = Get(k: K) | Add(k: K, v: V) | Remove(k: K) | Update(k: K, v: V)

  /** `NoSuch` and `Duplicate` are the source's own errors, `Failed` any other error of the store. */
  datatype Res<V> = Found(v: V) | NoSuch | Done | Duplicate | Failed

  /** A reader holding the read lock: before the lookup, or with what the loader found. */
  datatype Reader<K, V> = Looking(k: K) | Loaded(k: K, found: Option<V>)

  /** The write lock: free, held before the store is changed, or held before the cache follows. */
  datatype Writer<K, V> = Free | Holding(op: Op<K, V>) | Caching(k: K, v: Option<V>)

  /** `history` lists the operations that have taken effect, with their results. */
  datatype Coll<K, V> = Coll(stored: map<K, V>, cache: map<K, V>, readers: map<Tid, Reader<K, V>>,
                             writer: Writer<K, V>, history: seq<(Op<K, V>, Res<V>)>)

  datatype Event<K, V> =
    | ReadLock(t: Tid, k: K)
    | Hit(t: Tid)
    | Load(t: Tid, ok: bool)
    | Publish(t: Tid)
    | WriteLock(op: Op<K, V>)
    | ChangeStore(ok: bool)
    | ChangeCache
    | Evict(k: K)

  /** What `UpdateOne` makes of a stored row, or None if its filter does not match the row. */
  type Merge<!V> = (V, V) -> Option<V>

  function Empty<K, V>(): Coll<K, V> { Coll(map[], map[], map[], Free, []) }

  function Lookup<K, V>(m: map<K, V>, k: K): Option<V> { if k in m then Some(m[k]) else None }

  predicate Enabled<K, V>(s: Coll<K, V>, e: Event<K, V>) {
    match e
    case ReadLock(t, _) => s.writer.Free? && t !in s.readers
    case Hit(t) => t in s.readers && s.readers[t].Looking? && s.readers[t].k in s.cache
    case Load(t, _) => t in s.readers && s.readers[t].Looking? && s.readers[t].k !in s.cache
    case Publish(t) => t in s.readers && s.readers[t].Loaded?
    case WriteLock(op) => s.writer.Free? && s.readers == map[] && !op.Get?
    case ChangeStore(_) => s.writer.Holding?
    case ChangeCache => s.writer.Caching?
    case Evict(_) => true
  }

  function Record<K, V>(s: Coll<K, V>, op: Op<K, V>, r: Res<V>): Coll<K, V> { s.(history := s.history + [(op, r)]) }

  /** `InsertOne`, `DeleteOne` and `UpdateOne` under the write lock. */
  function Store<K, V>(u: Merge<V>, s: Coll<K, V>, op: Op<K, V>): Coll<K, V> {
    match op
    case Add(k, v) =>
      if k in s.stored then Record(s, op, Duplicate).(writer := Free)
      else Record(s, op, Done).(stored := s.stored[k := v], writer := Caching(k, Some(v)))
    case Remove(k) => Record(s, op, Done).(stored := s.stored - {k}, writer := Caching(k, None))
    case Update(k, v) =>
      var row := if k in s.stored then u(s.stored[k], v) else None;
      if row.None? then Record(s, op, NoSuch).(writer := Free)
      else Record(s, op, Done).(stored := s.stored[k := row.value], writer := Caching(k, Some(v)))
    case Get(_) => s
  }

  function Apply<K, V>(u: Merge<V>, s: Coll<K, V>, e: Event<K, V>): Coll<K, V>
    requires Enabled(s, e)
  {
    match e
    case ReadLock(t, k) => s.(readers := s.readers[t := Looking(k)])
    case Hit(t) =>
      var k := s.readers[t].k;
      Record(s, Get(k), Found(s.cache[k])).(readers := s.readers - {t})
    case Load(t, ok) =>
      var k := s.readers[t].k;
      if ok then s.(readers := s.readers[t := Loaded(k, Lookup(s.stored, k))])
      else Record(s, Get(k), Failed).(readers := s.readers - {t})
    case Publish(t) =>
      var r := s.readers[t];
      if r.found.Some? then
        Record(s, Get(r.k), Found(r.found.value)).(readers := s.readers - {t}, cache := s.cache[r.k := r.found.value])
      else Record(s, Get(r.k), NoSuch).(readers := s.readers - {t})
    case WriteLock(op) => s.(writer := Holding(op))
    case ChangeStore(ok) =>
      if ok then Store(u, s, s.writer.op) else Record(s, s.writer.op, Failed).(writer := Free)
    case ChangeCache =>
      s.(cache := if s.writer.v.Some? then s.cache[s.writer.k := s.writer.v.value] else s.cache - {s.writer.k},
         writer := Free)
    case Evict(k) => s.(cache := s.cache - {k})
  }

  // ----- a plain map -----

  /** The result `r` of `op` on a plain map; a failed operation has no effect. */
  ghost predicate PlainAllows<K, V>(u: Merge<V>, m: map<K, V>, op: Op<K, V>, r: Res<V>) {
    r.Failed? ||
    match op
    case Get(k) => r == if k in m then Found(m[k]) else NoSuch
    case Add(k, _) => r == if k in m then Duplicate else Done
    case Remove(_) => r == Done
    case Update(k, v) => r == if k in m && u(m[k], v).Some? then Done else NoSuch
  }

  ghost function PlainAfter<K, V>(m: map<K, V>, op: Op<K, V>, r: Res<V>): map<K, V> {
    if !r.Done? then m
    else match op
      case Get(_) => m
      case Add(k, v) => m[k := v]
      case Remove(k) => m - {k}
      case Update(k, v) => m[k := v]
  }

  /** The plain map after a history. */
  ghost function Replay<K, V>(h: seq<(Op<K, V>, Res<V>)>): map<K, V> {
    if h == [] then map[] else PlainAfter(Replay(h[..|h| - 1]), h[|h| - 1].0, h[|h| - 1].1)
  }

  /** Every result of the history is the one a plain map gives. */
  ghost predicate Linear<K, V>(u: Merge<V>, h: seq<(Op<K, V>, Res<V>)>) {
    h == [] || (Linear(u, h[..|h| - 1]) && PlainAllows(u, Replay(h[..|h| - 1]), h[|h| - 1].0, h[|h| - 1].1))
  }

  lemma LinearSnoc<K, V>(u: Merge<V>, h: seq<(Op<K, V>, Res<V>)>, op: Op<K, V>, r: Res<V>)
    requires Linear(u, h) && PlainAllows(u, Replay(h), op, r)
    ensures Linear(u, h + [(op, r)]) && Replay(h + [(op, r)]) == PlainAfter(Replay(h), op, r)
  {
    assert (h + [(op, r)])[..|h|] == h;
  }

  // ----- invariant -----

  /** Every cached entry is the stored row, except the one whose change the writer is about to make in the cache. */
  ghost predicate Coherent<K, V>(s: Coll<K, V>) {
    forall k :: k in s.cache && !(s.writer.Caching? && s.writer.k == k) ==> k in s.stored && s.cache[k] == s.stored[k]
  }

  ghost predicate CacheFollows<K, V>(s: Coll<K, V>) {
    s.writer.Caching? ==> s.writer.v == Lookup(s.stored, s.writer.k)
  }

  /** What a reader has loaded and not yet published is still what is stored. */
  ghost predicate LoadsAreCurrent<K, V>(s: Coll<K, V>) {
    forall t :: t in s.readers && s.readers[t].Loaded? ==> s.readers[t].found == Lookup(s.stored, s.readers[t].k)
  }

  ghost predicate LockDiscipline<K, V>(s: Coll<K, V>) {
    && (!s.writer.Free? ==> s.readers == map[])
    && (s.writer.Holding? ==> !s.writer.op.Get?)
  }

  ghost predicate Faithfully<K, V>(u: Merge<V>, s: Coll<K, V>) {
    && LockDiscipline(s) && Coherent(s) && CacheFollows(s) && LoadsAreCurrent(s)
    && Linear(u, s.history) && Replay(s.history) == s.stored
  }

  /** The update the writer is about to store either does not match or stores exactly the value it will cache. */
  ghost predicate StoresWhatItCaches<K, V>(u: Merge<V>, s: Coll<K, V>) {
    s.writer.Holding? && s.writer.op.Update? && s.writer.op.k in s.stored ==>
      u(s.stored[s.writer.op.k], s.writer.op.v) in {None, Some(s.writer.op.v)}
  }

  ghost predicate FaithfulStep<K, V>(u: Merge<V>, s: Coll<K, V>, e: Event<K, V>) {
    e.ChangeStore? && e.ok ==> StoresWhatItCaches(u, s)
  }

  lemma AddKeeps<K, V>(u: Merge<V>, s: Coll<K, V>)
    requires Faithfully(u, s) && s.writer.Holding? && s.writer.op.Add?
    ensures Faithfully(u, Store(u, s, s.writer.op))
  {
    LinearSnoc(u, s.history, s.writer.op, if s.writer.op.k in s.stored then Duplicate else Done);
  }

  lemma RemoveKeeps<K, V>(u: Merge<V>, s: Coll<K, V>)
    requires Faithfully(u, s) && s.writer.Holding? && s.writer.op.Remove?
    ensures Faithfully(u, Store(u, s, s.writer.op))
  {
    LinearSnoc(u, s.history, s.writer.op, Done);
  }

  lemma UpdateKeeps<K, V>(u: Merge<V>, s: Coll<K, V>)
    requires Faithfully(u, s) && s.writer.Holding? && s.writer.op.Update? && StoresWhatItCaches(u, s)
    ensures Faithfully(u, Store(u, s, s.writer.op))
  {
    var k, v := s.writer.op.k, s.writer.op.v;
    LinearSnoc(u, s.history, s.writer.op, if k in s.stored && u(s.stored[k], v).Some? then Done else NoSuch);
  }

  lemma StoreKeeps<K, V>(u: Merge<V>, s: Coll<K, V>, ok: bool)
    requires Faithfully(u, s) && Enabled(s, ChangeStore(ok)) && (ok ==> StoresWhatItCaches(u, s))
    ensures Faithfully(u, Apply(u, s, ChangeStore(ok)))
  {
    if !ok {
      LinearSnoc(u, s.history, s.writer.op, Failed);
    } else if s.writer.op.Add? {
      AddKeeps(u, s);
    } else if s.writer.op.Remove? {
      RemoveKeeps(u, s);
    } else {
      UpdateKeeps(u, s);
    }
  }

  lemma ReadStepKeeps<K, V>(u: Merge<V>, s: Coll<K, V>, e: Event<K, V>)
    requires Faithfully(u, s) && Enabled(s, e) && (e.Hit? || e.Load? || e.Publish?)
    ensures Faithfully(u, Apply(u, s, e))
  {
    var k := s.readers[e.t].k;
    if e.Hit? {
      LinearSnoc(u, s.history, Get(k), Found(s.cache[k]));
    } else if e.Publish? {
      LinearSnoc(u, s.history, Get(k), if k in s.stored then Found(s.stored[k]) else NoSuch);
    } else if !e.ok {
      LinearSnoc(u, s.history, Get(k), Failed);
    }
  }

  lemma StepKeeps<K, V>(u: Merge<V>, s: Coll<K, V>, e: Event<K, V>)
    requires Faithfully(u, s) && Enabled(s, e) && FaithfulStep(u, s, e)
    ensures Faithfully(u, Apply(u, s, e))
  {
    match e {
      case ChangeStore(ok) => StoreKeeps(u, s, ok);
      case Hit(_) => ReadStepKeeps(u, s, e);
      case Load(_, _) => ReadStepKeeps(u, s, e);
      case Publish(_) => ReadStepKeeps(u, s, e);
      case _ =>
    }
  }

  // ----- runs -----

  ghost predicate Executes<K, V>(u: Merge<V>, s: Coll<K, V>, es: seq<Event<K, V>>, s': Coll<K, V>)
    decreases |es|
  {
    if es == [] then s' == s else Enabled(s, es[0]) && Executes(u, Apply(u, s, es[0]), es[1..], s')
  }

  /** Every step of the run that stores an update stores what it caches. */
  ghost predicate FaithfulRun<K, V>(u: Merge<V>, s: Coll<K, V>, es: seq<Event<K, V>>)
    decreases |es|
  {
    es == [] || (Enabled(s, es[0]) && FaithfulStep(u, s, es[0]) && FaithfulRun(u, Apply(u, s, es[0]), es[1..]))
  }

  lemma {:induction false} RunKeeps<K, V>(u: Merge<V>, s: Coll<K, V>, es: seq<Event<K, V>>, s': Coll<K, V>)
    requires Faithfully(u, s) && Executes(u, s, es, s') && FaithfulRun(u, s, es)
    ensures Faithfully(u, s')
    decreases |es|
  {
    if es != [] {
      StepKeeps(u, s, es[0]);
      RunKeeps(u, Apply(u, s, es[0]), es[1..], s');
    }
  }

  /**
   * With any number of readers filling the cache, writers, evictions and failures, the collection is
   * indistinguishable from a plain map, as long as every update stores what it caches.
   */
  lemma CacheIsTransparent<K, V>(u: Merge<V>, es: seq<Event<K, V>>, s: Coll<K, V>)
    requires Executes(u, Empty(), es, s) && FaithfulRun(u, Empty(), es)
    ensures Linear(u, s.history) && Replay(s.history) == s.stored
    ensures Coherent(s) && LoadsAreCurrent(s)
  {
    RunKeeps(u, Empty(), es, s);
  }

  /** The collection stands for a plain map in every state of the run. */
  ghost predicate FaithfulAlong<K, V>(u: Merge<V>, s: Coll<K, V>, es: seq<Event<K, V>>)
    decreases |es|
  {
    Faithfully(u, s) && (es == [] || (Enabled(s, es[0]) && FaithfulAlong(u, Apply(u, s, es[0]), es[1..])))
  }

  /** An update that stores something else than it caches shows at once. */
  lemma UnfaithfulStepShows<K, V>(u: Merge<V>, s: Coll<K, V>, e: Event<K, V>)
    requires Faithfully(u, s) && Enabled(s, e) && !FaithfulStep(u, s, e)
    ensures !CacheFollows(Apply(u, s, e))
  {
  }

  /** The exact condition for a run: it is faithful throughout if and only if every stored update is what is cached. */
  lemma {:induction false} FaithfulAlongIff<K, V>(u: Merge<V>, s: Coll<K, V>, es: seq<Event<K, V>>, s': Coll<K, V>)
    requires Faithfully(u, s) && Executes(u, s, es, s')
    ensures FaithfulAlong(u, s, es) <==> FaithfulRun(u, s, es)
    decreases |es|
  {
    if es != [] {
      if FaithfulStep(u, s, es[0]) {
        StepKeeps(u, s, es[0]);
        FaithfulAlongIff(u, Apply(u, s, es[0]), es[1..], s');
      } else {
        UnfaithfulStepShows(u, s, es[0]);
      }
    }
  }

  /** What a history says of each of its operations. */
  lemma {:induction false} LinearAt<K, V>(u: Merge<V>, h: seq<(Op<K, V>, Res<V>)>, i: nat)
    requires Linear(u, h) && i < |h|
    ensures PlainAllows(u, Replay(h[..i]), h[i].0, h[i].1)
    decreases |h|
  {
    if i < |h| - 1 {
      LinearAt(u, h[..|h| - 1], i);
      assert h[..|h| - 1][..i] == h[..i];
    }
  }

  ghost predicate WithoutUpdates<K, V>(es: seq<Event<K, V>>) {
    forall i :: 0 <= i < |es| ==> !(es[i].WriteLock? && es[i].op.Update?)
  }

  lemma {:induction false} WithoutUpdatesIsFaithful<K, V>(u: Merge<V>, s: Coll<K, V>, es: seq<Event<K, V>>,
                                                          s': Coll<K, V>)
    requires WithoutUpdates(es) && Executes(u, s, es, s') && !(s.writer.Holding? && s.writer.op.Update?)
    ensures FaithfulRun(u, s, es)
    decreases |es|
  {
    if es != [] {
      assert WithoutUpdates(es[1..]) by {
        forall i | 0 <= i < |es[1..]| ensures !(es[1..][i].WriteLock? && es[1..][i].op.Update?) {
          assert es[1..][i] == es[i + 1];
        }
      }
      WithoutUpdatesIsFaithful(u, Apply(u, s, es[0]), es[1..], s');
    }
  }

  /** ESB records and message pools, which are never updated in place, need no condition. */
  lemma CacheWithoutUpdatesIsTransparent<K, V>(u: Merge<V>, es: seq<Event<K, V>>, s: Coll<K, V>)
    requires Executes(u, Empty(), es, s) && WithoutUpdates(es)
    ensures Linear(u, s.history) && Replay(s.history) == s.stored
    ensures Coherent(s) && LoadsAreCurrent(s)
  {
    WithoutUpdatesIsFaithful(u, Empty(), es, s);
    CacheIsTransparent(u, es, s);
  }

  /**
   * The exact condition for one update: after the store and the cache have both changed, the cache agrees with the
   * store if and only if the update stored what it cached.
   */
  lemma UpdateCoheresIff<K, V>(u: Merge<V>, s: Coll<K, V>)
    requires Faithfully(u, s) && s.writer.Holding? && s.writer.op.Update?
    requires s.writer.op.k in s.stored && u(s.stored[s.writer.op.k], s.writer.op.v).Some?
    ensures Coherent(Apply(u, Apply(u, s, ChangeStore(true)), ChangeCache)) <==> StoresWhatItCaches(u, s)
  {
    var k := s.writer.op.k;
    var s' := Apply(u, Apply(u, s, ChangeStore(true)), ChangeCache);
    assert k in s'.cache;
  }
}
