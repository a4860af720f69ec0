/** Small shared vocabulary: options, flattening, order-preserving subsequences, and sums over finite maps. */
module Basics {

  datatype Option<+T> = None | Some(value: T)

  /** The concatenation of a sequence of batches. */
  function Flatten<T>(batches: seq<seq<T>>): seq<T> {
    if batches == [] then [] else batches[0] + Flatten(batches[1..])
  }

  lemma Associative<T>(a: seq<T>, b: seq<T>, c: seq<T>)
    ensures (a + b) + c == a + (b + c)
  {
  }

  lemma {:induction false} FlattenAppend<T>(a: seq<seq<T>>, b: seq<seq<T>>)
    ensures Flatten(a + b) == Flatten(a) + Flatten(b)
  {
    if a == [] {
      assert a + b == b;
    } else {
      FlattenAppend(a[1..], b);
      assert (a + b)[0] == a[0];
      assert (a + b)[1..] == a[1..] + b;
      Associative(a[0], Flatten(a[1..]), Flatten(b));
    }
  }

  lemma FlattenSnoc<T>(a: seq<seq<T>>, x: seq<T>)
    ensures Flatten(a + [x]) == Flatten(a) + x
  {
    FlattenAppend(a, [x]);
    assert Flatten([x]) == x + Flatten([]);
  }

  // ----- order-preserving subsequences -----

  /** `a` is obtained from `b` by deleting elements. */
  ghost predicate Subseq<T>(a: seq<T>, b: seq<T>) {
    if a == [] then true
    else if b == [] then false
    else if a[|a| - 1] == b[|b| - 1] && Subseq(a[..|a| - 1], b[..|b| - 1]) then true
    else Subseq(a, b[..|b| - 1])
  }

  lemma SubseqSnocBoth<T>(a: seq<T>, b: seq<T>, x: T)
    requires Subseq(a, b)
    ensures Subseq(a + [x], b + [x])
  {
    assert (a + [x])[..|a|] == a && (b + [x])[..|b|] == b;
  }

  lemma SubseqSnocRight<T>(a: seq<T>, b: seq<T>, x: T)
    requires Subseq(a, b)
    ensures Subseq(a, b + [x])
  {
    assert (b + [x])[..|b|] == b;
  }

  lemma {:induction false} SubseqRefl<T>(a: seq<T>)
    ensures Subseq(a, a)
  {
    if a != [] { SubseqRefl(a[..|a| - 1]); }
  }

  lemma {:induction false} SubseqLength<T>(a: seq<T>, b: seq<T>)
    requires Subseq(a, b)
    ensures |a| <= |b|
    ensures |a| == |b| ==> a == b
    decreases |b|
  {
    if a == [] {
    } else if a[|a| - 1] == b[|b| - 1] && Subseq(a[..|a| - 1], b[..|b| - 1]) {
      SubseqLength(a[..|a| - 1], b[..|b| - 1]);
      if |a| == |b| {
        assert a == a[..|a| - 1] + [a[|a| - 1]];
        assert b == b[..|b| - 1] + [b[|b| - 1]];
      }
    } else {
      SubseqLength(a, b[..|b| - 1]);
    }
  }

  /** Deleting a middle piece of a subsequence leaves a subsequence. */
  lemma {:induction false} SubseqCut<T>(p: seq<T>, x: seq<T>, s: seq<T>, b: seq<T>)
    requires Subseq(p + x + s, b)
    ensures Subseq(p + s, b)
    decreases |b|
  {
    var a := p + x + s;
    if b == [] {
      assert p + s == [];
    } else if a == [] {
      assert p + s == [];
    } else if a[|a| - 1] == b[|b| - 1] && Subseq(a[..|a| - 1], b[..|b| - 1]) {
      var b' := b[..|b| - 1];
      if s != [] {
        var s' := s[..|s| - 1];
        assert a[..|a| - 1] == p + x + s';
        SubseqCut(p, x, s', b');
        assert (p + s)[..|p + s| - 1] == p + s';
      } else if x != [] {
        var x' := x[..|x| - 1];
        assert a[..|a| - 1] == p + x' + s;
        SubseqCut(p, x', s, b');
        assert b == b' + [b[|b| - 1]];
        SubseqSnocRight(p + s, b', b[|b| - 1]);
      } else {
        assert p + s == a;
      }
    } else {
      SubseqCut(p, x, s, b[..|b| - 1]);
      assert b == b[..|b| - 1] + [b[|b| - 1]];
      SubseqSnocRight(p + s, b[..|b| - 1], b[|b| - 1]);
    }
  }

  // ----- multisets -----

  lemma Cancel<T>(a: multiset<T>, b: multiset<T>, x: multiset<T>)
    requires a + x == b + x
    ensures a == b
  {
    forall y | y in a || y in b ensures a[y] == b[y] {
      assert (a + x)[y] == a[y] + x[y];
      assert (b + x)[y] == b[y] + x[y];
    }
  }

  /** A multiset within another of the same size is that other one. */
  lemma SameSize<T>(a: multiset<T>, b: multiset<T>)
    requires a <= b && |a| == |b|
    ensures a == b
  {
    assert b == a + (b - a) && |b - a| == 0;
  }

  /** What is left of a set whose elements are `rest` and `x`, all different. */
  lemma RemoveOne<T>(s: set<T>, rest: multiset<T>, x: T)
    requires multiset(s) == rest + multiset{x}
    ensures x in s && multiset(s - {x}) == rest
  {
    assert x in multiset(s);
    assert multiset(s) == multiset(s - {x}) + multiset{x};
    Cancel(multiset(s - {x}), rest, multiset{x});
  }

  /** The first element of a sequence and the rest. */
  lemma HeadTail<T>(s: seq<T>)
    requires s != []
    ensures multiset(s) == multiset{s[0]} + multiset(s[1..])
  {
    assert s == [s[0]] + s[1..];
  }

  /** One element of a sequence and the others. */
  lemma TakeOut<T>(s: seq<T>, n: nat)
    requires n < |s|
    ensures multiset(s) == multiset(s[..n] + s[n + 1..]) + multiset{s[n]}
  {
    assert s == s[..n] + [s[n]] + s[n + 1..];
  }

  // ----- sums over finite maps -----

  ghost function Pick<K, V>(m: map<K, V>): K
    requires m != map[]
    ensures Pick(m) in m
  {
    var k :| k in m; k
  }

  /** The sum of `f` over the values of `m`. */
  ghost function Collect<K, V, U>(m: map<K, V>, f: V -> multiset<U>): multiset<U>
    decreases |m|
  {
    if m == map[] then multiset{} else
      var k := Pick(m);
      f(m[k]) + Collect(m - {k}, f)
  }

  lemma {:induction false} CollectSplit<K, V, U>(m: map<K, V>, f: V -> multiset<U>, k: K)
    requires k in m
    ensures Collect(m, f) == f(m[k]) + Collect(m - {k}, f)
    decreases |m|
  {
    var j := Pick(m);
    if j != k {
      CollectSplit(m - {j}, f, k);
      CollectSplit(m - {k}, f, j);
      assert m - {j} - {k} == m - {k} - {j};
    }
  }

  /** Writing `v` at `k` replaces what `k` contributed. */
  lemma CollectPut<K, V, U>(m: map<K, V>, f: V -> multiset<U>, k: K, v: V)
    ensures Collect(m[k := v], f) == f(v) + Collect(m - {k}, f)
    ensures k !in m ==> Collect(m[k := v], f) == f(v) + Collect(m, f)
    ensures k in m ==> Collect(m, f) == f(m[k]) + Collect(m - {k}, f)
  {
    CollectSplit(m[k := v], f, k);
    assert m[k := v] - {k} == m - {k};
    if k in m {
      CollectSplit(m, f, k);
    } else {
      assert m - {k} == m;
    }
  }

  /** Two different keys contribute separately. */
  lemma CollectPair<K, V, U>(m: map<K, V>, f: V -> multiset<U>, j: K, k: K)
    requires j in m && k in m && j != k
    ensures f(m[j]) + f(m[k]) <= Collect(m, f)
  {
    CollectSplit(m, f, j);
    CollectSplit(m - {j}, f, k);
  }

  /** A sum is empty exactly when every summand is. */
  lemma {:induction false} CollectEmpty<K, V, U>(m: map<K, V>, f: V -> multiset<U>)
    ensures Collect(m, f) == multiset{} <==> forall k :: k in m ==> f(m[k]) == multiset{}
    decreases |m|
  {
    if m != map[] {
      var j := Pick(m);
      CollectEmpty(m - {j}, f);
      if Collect(m, f) == multiset{} {
        forall k | k in m ensures f(m[k]) == multiset{} {
          CollectSplit(m, f, k);
          assert |f(m[k]) + Collect(m - {k}, f)| == |f(m[k])| + |Collect(m - {k}, f)|;
        }
      } else {
        if f(m[j]) == multiset{} {
          assert Collect(m - {j}, f) != multiset{};
        }
      }
    }
  }

  /** Whatever a sum contains, one of the summands contributed. */
  lemma {:induction false} CollectWitness<K, V, U>(m: map<K, V>, f: V -> multiset<U>, x: U) returns (k: K)
    requires x in Collect(m, f)
    ensures k in m && x in f(m[k])
    decreases |m|
  {
    var j := Pick(m);
    if x in f(m[j]) {
      k := j;
    } else {
      k := CollectWitness(m - {j}, f, x);
    }
  }

  /** A value at two places of a sequence is there at least twice. */
  lemma TwicePresent<T>(s: seq<T>, i: nat, j: nat)
    requires i < j < |s| && s[i] == s[j]
    ensures multiset(s)[s[i]] >= 2
  {
    assert s == s[..j] + [s[j]] + s[j + 1..];
    assert s[i] in s[..j];
  }
}
