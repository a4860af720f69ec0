/**
 * One cached collection as the mutable object of internal/database: `coll` is the stored collection, `cache` the
 * cache in front of it. Every method holds the lock from start to end, and performs the sections of the machine in
 * CachedCollection one after another; `ok` says whether the call to the store succeeds.
 */
module CollectionObject {
  import opened Basics
  import opened CachedCollection

  class Collection<K(==), V(==)> {
    const merge: Merge<V>
    var coll: map<K, V>
    var cache: map<K, V>
    ghost var history: seq<(Op<K, V>, Res<V>)>

    ghost function Value(): Coll<K, V>
      reads this
    {
      Coll(coll, cache, map[], Free, history)
    }

    /** Every cached entry is the stored row. */
    ghost predicate IsCoherent()
      reads this
    {
      forall k :: k in cache ==> k in coll && cache[k] == coll[k]
    }

    constructor (merge: Merge<V>)
      ensures this.merge == merge && Value() == Empty()
    {
      this.merge := merge;
      coll, cache, history := map[], map[], [];
    }

    method Get(k: K, ok: bool) returns (r: Res<V>)
      modifies `cache, `history
      ensures Executes(merge, old(Value()),
                       [ReadLock(0, k)] + if k in old(cache) then [Hit(0)]
                                          else if ok then [Load(0, true), Publish(0)] else [Load(0, false)], Value())
      ensures history == old(history) + [(Op.Get(k), r)]
      ensures old(IsCoherent()) ==> IsCoherent()
      ensures old(IsCoherent()) ==>
                r == if !ok && k !in old(cache) then Failed else if k in coll then Found(coll[k]) else NoSuch
      ensures !ok ==> cache == old(cache)
    {
      ghost var s := Value();
      if k in cache {
        r := Found(cache[k]);
        history := history + [(Op.Get(k), r)];
        GetHits(merge, s, k, Value());
        return;
      }
      if !ok {
        r := Failed;
      } else if k in coll {
        cache := cache[k := coll[k]];
        r := Found(coll[k]);
      } else {
        r := NoSuch;
      }
      history := history + [(Op.Get(k), r)];
      GetMisses(merge, s, k, ok, Value());
    }

    method Add(k: K, v: V, ok: bool) returns (r: Res<V>)
      modifies `coll, `cache, `history
      ensures Executes(merge, old(Value()), WriteEvents(Op.Add(k, v), ok, r), Value())
      ensures history == old(history) + [(Op.Add(k, v), r)]
      ensures r == if !ok then Failed else if k in old(coll) then Duplicate else Done
      ensures coll == if r.Done? then old(coll)[k := v] else old(coll)
      ensures old(IsCoherent()) ==> IsCoherent()
    {
      ghost var s := Value();
      if !ok {
        r := Failed;
      } else if k in coll {
        r := Duplicate;
      } else {
        coll := coll[k := v];
        cache := cache[k := v];
        r := Done;
      }
      history := history + [(Op.Add(k, v), r)];
      Writes(merge, s, Op.Add(k, v), ok, r, Value());
    }

    /** Removing a key that is not there succeeds as well. */
    method Remove(k: K, ok: bool) returns (r: Res<V>)
      modifies `coll, `cache, `history
      ensures Executes(merge, old(Value()), WriteEvents(Op.Remove(k), ok, r), Value())
      ensures history == old(history) + [(Op.Remove(k), r)]
      ensures r == if ok then Done else Failed
      ensures coll == if ok then old(coll) - {k} else old(coll)
      ensures old(IsCoherent()) ==> IsCoherent()
    {
      ghost var s := Value();
      if !ok {
        r := Failed;
      } else {
        coll := coll - {k};
        cache := cache - {k};
        r := Done;
      }
      history := history + [(Op.Remove(k), r)];
      Writes(merge, s, Op.Remove(k), ok, r, Value());
    }

    /** The object stays coherent exactly when the row that is stored is the value that is cached. */
    method Update(k: K, v: V, ok: bool) returns (r: Res<V>)
      modifies `coll, `cache, `history
      ensures Executes(merge, old(Value()), WriteEvents(Op.Update(k, v), ok, r), Value())
      ensures history == old(history) + [(Op.Update(k, v), r)]
      ensures r.Done? <==> ok && k in old(coll) && merge(old(coll)[k], v).Some?
      ensures !r.Done? ==> r == (if ok then NoSuch else Failed) && coll == old(coll) && cache == old(cache)
      ensures r.Done? ==> coll == old(coll)[k := merge(old(coll)[k], v).value] && cache == old(cache)[k := v]
      ensures old(IsCoherent()) ==> (IsCoherent() <==> (r.Done? ==> coll[k] == v))
    {
      ghost var s := Value();
      if !ok {
        r := Failed;
      } else if k !in coll || merge(coll[k], v).None? {
        r := NoSuch;
      } else {
        coll := coll[k := merge(coll[k], v).value];
        cache := cache[k := v];
        assert k in cache;
        r := Done;
      }
      history := history + [(Op.Update(k, v), r)];
      Writes(merge, s, Op.Update(k, v), ok, r, Value());
    }

    /** The cache drops an entry on its own. */
    method Evict(k: K)
      modifies `cache
      ensures Executes(merge, old(Value()), [CachedCollection.Evict(k)], Value())
      ensures old(IsCoherent()) ==> IsCoherent()
    {
      ghost var s := Value();
      cache := cache - {k};
      assert Executes(merge, Value(), [], Value());
    }
  }

  /** The sections of a writer: the cache is only touched after the store took the change. */
  function WriteEvents<K, V>(op: Op<K, V>, ok: bool, r: Res<V>): seq<Event<K, V>> {
    [WriteLock(op), ChangeStore(ok)] + if r.Done? then [ChangeCache] else []
  }

  lemma TwoSteps<K, V>(u: Merge<V>, s: Coll<K, V>, a: Event<K, V>, b: Event<K, V>)
    requires Enabled(s, a) && Enabled(Apply(u, s, a), b)
    ensures Executes(u, s, [a, b], Apply(u, Apply(u, s, a), b))
  {
    var m := Apply(u, s, a);
    assert [a, b][1..] == [b] && [b][1..] == [];
    assert Executes(u, Apply(u, m, b), [], Apply(u, m, b));
    assert Executes(u, m, [b], Apply(u, m, b));
  }

  lemma ThreeSteps<K, V>(u: Merge<V>, s: Coll<K, V>, a: Event<K, V>, b: Event<K, V>, c: Event<K, V>)
    requires Enabled(s, a) && Enabled(Apply(u, s, a), b) && Enabled(Apply(u, Apply(u, s, a), b), c)
    ensures Executes(u, s, [a, b, c], Apply(u, Apply(u, Apply(u, s, a), b), c))
  {
    TwoSteps(u, Apply(u, s, a), b, c);
    assert [a, b, c][1..] == [b, c];
  }

  lemma GetHits<K, V>(u: Merge<V>, s: Coll<K, V>, k: K, s': Coll<K, V>)
    requires s.readers == map[] && s.writer.Free? && k in s.cache
    requires s' == s.(history := s.history + [(Op.Get(k), Found(s.cache[k]))])
    ensures Executes(u, s, [ReadLock(0, k)] + [Hit(0)], s')
  {
    TwoSteps(u, s, ReadLock(0, k), Hit(0));
    assert [ReadLock(0, k)] + [Hit(0)] == [ReadLock(0, k), Event<K, V>.Hit(0)];
    assert map[0 := Reader<K, V>.Looking(k)] - {0} == map[];
  }

  lemma GetMisses<K, V>(u: Merge<V>, s: Coll<K, V>, k: K, ok: bool, s': Coll<K, V>)
    requires s.readers == map[] && s.writer.Free? && k !in s.cache
    requires s' == s.(history := s.history + [(Op.Get(k), if !ok then Failed
                                                          else if k in s.stored then Found(s.stored[k]) else NoSuch)],
                      cache := if ok && k in s.stored then s.cache[k := s.stored[k]] else s.cache)
    ensures Executes(u, s, [ReadLock(0, k)] + if ok then [Load(0, true), Publish(0)] else [Load(0, false)], s')
  {
    assert map[0 := Reader<K, V>.Looking(k)] - {0} == map[];
    if ok {
      var es: seq<Event<K, V>> := [ReadLock(0, k), Load(0, true), Publish(0)];
      ThreeSteps(u, s, ReadLock(0, k), Load(0, true), Publish(0));
      assert [ReadLock(0, k)] + [Load(0, true), Publish(0)] == es;
      var found := Lookup(s.stored, k);
      assert map[0 := Reader<K, V>.Looking(k)][0 := Loaded(k, found)] - {0} == map[];
    } else {
      TwoSteps(u, s, ReadLock(0, k), Load(0, false));
      assert [ReadLock(0, k)] + [Load(0, false)] == [ReadLock(0, k), Event<K, V>.Load(0, false)];
    }
  }

  lemma Writes<K, V>(u: Merge<V>, s: Coll<K, V>, op: Op<K, V>, ok: bool, r: Res<V>, s': Coll<K, V>)
    requires s.readers == map[] && s.writer.Free? && !op.Get?
    requires var m := Apply(u, s.(writer := Holding(op)), ChangeStore(ok));
             && (r.Done? <==> m.writer.Caching?)
             && s' == if r.Done? then Apply(u, m, ChangeCache) else m
    ensures Executes(u, s, WriteEvents(op, ok, r), s')
  {
    if r.Done? {
      ThreeSteps(u, s, WriteLock(op), ChangeStore(ok), ChangeCache);
      assert WriteEvents(op, ok, r) == [WriteLock(op), ChangeStore(ok), ChangeCache];
    } else {
      TwoSteps(u, s, WriteLock(op), ChangeStore(ok));
      assert WriteEvents(op, ok, r) == [WriteLock(op), ChangeStore(ok)];
    }
  }
}
