/** The routes collection (internal/database/routes.go) and the endpoint functions over it (mongo.go). */
module Routes {
  import opened Basics
  import opened CachedCollection

  datatype EndpointType = StaticEndpoint | ProxyEndpoint | DynamicEndpoint

  datatype Route = Route(path: string, typ: EndpointType, scriptName: string, response: string, proxyURL: string)

  // The typed endpoint functions leave the fields of the other types empty.

  function StaticRoute(path: string, response: string): Route { Route(path, StaticEndpoint, "", response, "") }

  function ProxyRoute(path: string, url: string): Route { Route(path, ProxyEndpoint, "", "", url) }

  function DynamicRoute(path: string, script: string): Route { Route(path, DynamicEndpoint, script, "", "") }

  /** `updateRoute`: the filter asks for the same type, and only response and script name are set. */
  function SetFields(row: Route, upd: Route): Option<Route> {
    if row.typ == upd.typ then Some(row.(response := upd.response, scriptName := upd.scriptName)) else None
  }

  /** The row was made by one of the typed endpoint functions. */
  predicate Shaped(k: string, r: Route) {
    r.path == k && r in {StaticRoute(k, r.response), ProxyRoute(k, r.proxyURL), DynamicRoute(k, r.scriptName)}
  }

  predicate TypedOp(op: Op<string, Route>) { op.Add? || op.Update? ==> Shaped(op.k, op.v) }

  ghost predicate TypedRun(es: seq<Event<string, Route>>) {
    forall i :: 0 <= i < |es| && es[i].WriteLock? ==> TypedOp(es[i].op)
  }

  ghost predicate ShapedRows(m: map<string, Route>) { forall k :: k in m ==> Shaped(k, m[k]) }

  ghost predicate ShapedLoads(readers: map<Tid, Reader<string, Route>>) {
    forall t :: t in readers && readers[t].Loaded? && readers[t].found.Some? ==>
      Shaped(readers[t].k, readers[t].found.value)
  }

  ghost predicate ShapedWriter(w: Writer<string, Route>) {
    (w.Holding? ==> TypedOp(w.op)) && (w.Caching? && w.v.Some? ==> Shaped(w.k, w.v.value))
  }

  ghost predicate ShapedResults(h: seq<(Op<string, Route>, Res<Route>)>) {
    forall i :: 0 <= i < |h| && h[i].1.Found? ==> h[i].0.Get? && Shaped(h[i].0.k, h[i].1.v)
  }

  /** Wherever a row is, the fields that its type does not use are empty. */
  ghost predicate RowsShaped(s: Coll<string, Route>) {
    && ShapedRows(s.stored) && ShapedRows(s.cache) && ShapedLoads(s.readers) && ShapedWriter(s.writer)
    && ShapedResults(s.history)
  }

  lemma ResultsMore(h: seq<(Op<string, Route>, Res<Route>)>, op: Op<string, Route>, r: Res<Route>)
    requires ShapedResults(h) && (r.Found? ==> op.Get? && Shaped(op.k, r.v))
    ensures ShapedResults(h + [(op, r)])
  {
  }

  lemma StoreKeepsShape(s: Coll<string, Route>, op: Op<string, Route>)
    requires RowsShaped(s) && s.writer == Holding(op)
    ensures RowsShaped(Store(SetFields, s, op))
  {
    ResultsMore(s.history, op, Duplicate);
    ResultsMore(s.history, op, Done);
    ResultsMore(s.history, op, NoSuch);
    if op.Update? && op.k in s.stored && SetFields(s.stored[op.k], op.v).Some? {
      assert Shaped(op.k, SetFields(s.stored[op.k], op.v).value);
    }
  }

  lemma ReaderKeepsShape(s: Coll<string, Route>, e: Event<string, Route>)
    requires RowsShaped(s) && Enabled(s, e) && (e.Hit? || e.Load? || e.Publish?)
    ensures RowsShaped(Apply(SetFields, s, e))
  {
    var k := s.readers[e.t].k;
    if e.Hit? {
      ResultsMore(s.history, Get(k), Found(s.cache[k]));
    } else if e.Load? {
      ResultsMore(s.history, Get(k), Failed);
    } else {
      var found := s.readers[e.t].found;
      ResultsMore(s.history, Get(k), if found.Some? then Found(found.value) else NoSuch);
    }
  }

  lemma StepKeepsShape(s: Coll<string, Route>, e: Event<string, Route>)
    requires RowsShaped(s) && Enabled(s, e) && (e.WriteLock? ==> TypedOp(e.op))
    ensures RowsShaped(Apply(SetFields, s, e))
  {
    if e.Hit? || e.Load? || e.Publish? {
      ReaderKeepsShape(s, e);
    } else if e.ChangeStore? {
      if e.ok { StoreKeepsShape(s, s.writer.op); } else { ResultsMore(s.history, s.writer.op, Failed); }
    }
  }

  lemma TypedTail(es: seq<Event<string, Route>>)
    requires TypedRun(es) && es != []
    ensures (es[0].WriteLock? ==> TypedOp(es[0].op)) && TypedRun(es[1..])
  {
    forall i | 0 <= i < |es[1..]| && es[1..][i].WriteLock? ensures TypedOp(es[1..][i].op) {
      assert es[1..][i] == es[i + 1];
    }
  }

  lemma {:induction false} RunKeepsShape(s: Coll<string, Route>, es: seq<Event<string, Route>>, s': Coll<string, Route>)
    requires RowsShaped(s) && TypedRun(es) && Executes(SetFields, s, es, s')
    ensures RowsShaped(s')
    decreases |es|
  {
    if es != [] {
      TypedTail(es);
      StepKeepsShape(s, es[0]);
      RunKeepsShape(Apply(SetFields, s, es[0]), es[1..], s');
    }
  }

  /**
   * An update of a route stores exactly the route it caches, or matches nothing, unless it changes a proxy's URL:
   * the URL is not among the fields that are set.
   */
  lemma UpdateStoresRouteIff(k: string, row: Route, upd: Route)
    requires Shaped(k, row) && Shaped(k, upd)
    ensures SetFields(row, upd) in {None, Some(upd)} <==> !ChangesUrl(row, upd)
  {
  }

  predicate ChangesUrl(row: Route, upd: Route) {
    row.typ.ProxyEndpoint? && upd.typ.ProxyEndpoint? && row.proxyURL != upd.proxyURL
  }

  // ----- runs in which no proxy's URL is changed -----

  /** The step does not change the URL of a stored proxy route. */
  predicate QuietStep(s: Coll<string, Route>, e: Event<string, Route>) {
    e.ChangeStore? && e.ok && s.writer.Holding? && s.writer.op.Update? && s.writer.op.k in s.stored ==>
      !ChangesUrl(s.stored[s.writer.op.k], s.writer.op.v)
  }

  ghost predicate QuietRun(s: Coll<string, Route>, es: seq<Event<string, Route>>)
    decreases |es|
  {
    es == [] || (Enabled(s, es[0]) && QuietStep(s, es[0]) && QuietRun(Apply(SetFields, s, es[0]), es[1..]))
  }

  lemma QuietStepIsFaithful(s: Coll<string, Route>, e: Event<string, Route>)
    requires RowsShaped(s) && Enabled(s, e)
    ensures QuietStep(s, e) <==> FaithfulStep(SetFields, s, e)
  {
    if e.ChangeStore? && s.writer.op.Update? && s.writer.op.k in s.stored {
      UpdateStoresRouteIff(s.writer.op.k, s.stored[s.writer.op.k], s.writer.op.v);
    }
  }

  lemma {:induction false} QuietIsFaithful(s: Coll<string, Route>, es: seq<Event<string, Route>>,
                                           s': Coll<string, Route>)
    requires RowsShaped(s) && TypedRun(es) && Executes(SetFields, s, es, s')
    ensures QuietRun(s, es) <==> FaithfulRun(SetFields, s, es)
    decreases |es|
  {
    if es != [] {
      TypedTail(es);
      QuietStepIsFaithful(s, es[0]);
      StepKeepsShape(s, es[0]);
      QuietIsFaithful(Apply(SetFields, s, es[0]), es[1..], s');
    }
  }

  /**
   * The exact condition: with any mixture of additions, removals, updates, lookups, evictions, failures and
   * concurrency, the routes stand for a plain map in every state of a run if and only if no stored proxy's URL is
   * changed by an update in it.
   */
  lemma RoutesAreFaithfulIff(es: seq<Event<string, Route>>, s: Coll<string, Route>)
    requires Executes(SetFields, Empty(), es, s) && TypedRun(es)
    ensures FaithfulAlong(SetFields, Empty(), es) <==> QuietRun(Empty(), es)
  {
    QuietIsFaithful(Empty(), es, s);
    FaithfulAlongIff(SetFields, Empty(), es, s);
  }

  lemma RoutesAreTransparent(es: seq<Event<string, Route>>, s: Coll<string, Route>)
    requires Executes(SetFields, Empty(), es, s) && TypedRun(es) && QuietRun(Empty(), es)
    ensures Linear(SetFields, s.history) && Replay(s.history) == s.stored
    ensures Coherent(s) && LoadsAreCurrent(s)
  {
    QuietIsFaithful(Empty(), es, s);
    CacheIsTransparent(SetFields, es, s);
  }

  // ----- typed lookups and listings -----

  datatype Answer = Value(v: string) | NoSuchPath | BadRouteType | OtherError

  /** `GetStaticEndpointResponse`, `GetProxyEndpointProxyUrl` and `GetDynamicEndpointScriptName` on what was found. */
  function Typed(r: Res<Route>, t: EndpointType): Answer {
    match r
    case Found(row) =>
      if row.typ != t then BadRouteType
      else Value(match t case StaticEndpoint => row.response case ProxyEndpoint => row.proxyURL
                         case DynamicEndpoint => row.scriptName)
    case NoSuch => NoSuchPath
    case _ => OtherError
  }

  /** What a complete read of the cursor gives: every stored route of the type once, in some order. */
  ghost predicate Listing(coll: map<string, Route>, t: EndpointType, results: seq<Route>) {
    && (forall i :: 0 <= i < |results| ==> results[i].path in coll && coll[results[i].path].typ == t)
    && (forall k :: k in coll && coll[k].typ == t ==> exists i :: 0 <= i < |results| && results[i].path == k)
    && (forall i, j :: 0 <= i < j < |results| ==> results[i].path != results[j].path)
  }

  lemma {:induction false} DistinctAreASet(s: seq<string>)
    requires forall i, j :: 0 <= i < j < |s| ==> s[i] != s[j]
    ensures multiset(s) == multiset(set x | x in s)
  {
    if s != [] {
      DistinctAreASet(s[1..]);
      assert s == [s[0]] + s[1..];
      assert (set x | x in s) == {s[0]} + set x | x in s[1..];
    }
  }

  /**
   * `listAllRoutesPathsWithType`: the paths of the stored routes of that type, each exactly once; `found` is what the
   * cursor brings, if the query and the cursor do not fail.
   */
  method ListPaths(coll: map<string, Route>, t: EndpointType, found: Option<seq<Route>>)
    returns (paths: Option<array<string>>)
    requires found.Some? ==> Listing(coll, t, found.value)
    ensures paths.Some? <==> found.Some?
    ensures paths.Some? ==> multiset(paths.value[..]) == multiset(set k | k in coll && coll[k].typ == t)
    ensures paths.Some? ==> |paths.value[..]| == |found.value|
    ensures paths.Some? ==> forall i :: 0 <= i < |found.value| ==> paths.value[..][i] == found.value[i].path
  {
    if found.None? { return None; }
    var results := found.value;
    var filled := new string[|results|];
    for i := 0 to |results|
      invariant forall j :: 0 <= j < i ==> filled[j] == results[j].path
    {
      filled[i] := results[i].path;
    }
    DistinctAreASet(filled[..]);
    forall k | k in coll && coll[k].typ == t ensures k in filled[..] {
      var i :| 0 <= i < |results| && results[i].path == k;
      assert filled[..][i] == k;
    }
    assert (set x | x in filled[..]) == set k | k in coll && coll[k].typ == t;
    return Some(filled);
  }

  // ----- a proxy update -----

  lemma {:induction false} Extend(s: Coll<string, Route>, es: seq<Event<string, Route>>, m: Coll<string, Route>,
                                  e: Event<string, Route>)
    requires Executes(SetFields, s, es, m) && Enabled(m, e)
    ensures Executes(SetFields, s, es + [e], Apply(SetFields, m, e))
    decreases |es|
  {
    if es == [] {
      assert es + [e] == [e];
    } else {
      Extend(Apply(SetFields, s, es[0]), es[1..], m, e);
      assert (es + [e])[0] == es[0] && (es + [e])[1..] == es[1..] + [e];
    }
  }

  /** The collection with one stored proxy route, the given cache and history. */
  function Single(stored: Route, cache: map<string, Route>, writer: Writer<string, Route>,
                  history: seq<(Op<string, Route>, Res<Route>)>): Coll<string, Route> {
    Coll(map[stored.path := stored], cache, map[], writer, history)
  }

  /** Adding a proxy route and changing its URL: the cache has the new route, the store the old one. */
  lemma ProxyUpdateLeavesRowOld(p: string, url: string, other: string) returns (es: seq<Event<string, Route>>)
    ensures var a, b := ProxyRoute(p, url), ProxyRoute(p, other);
            Executes(SetFields, Empty(), es, Single(a, map[p := b], Free, [(Add(p, a), Done), (Update(p, b), Done)]))
    ensures TypedRun(es)
  {
    var a, b := ProxyRoute(p, url), ProxyRoute(p, other);
    var h := [(Add(p, a), Done)];
    es := [];
    Extend(Empty(), es, Empty(), WriteLock(Add(p, a)));
    es := es + [WriteLock(Add(p, a))];
    var s := Apply(SetFields, Empty(), WriteLock(Add(p, a)));
    Extend(Empty(), es, s, ChangeStore(true));
    es := es + [ChangeStore(true)];
    assert Apply(SetFields, s, ChangeStore(true)) == Single(a, map[], Caching(p, Some(a)), h);
    Extend(Empty(), es, Single(a, map[], Caching(p, Some(a)), h), ChangeCache);
    es := es + [ChangeCache];
    Extend(Empty(), es, Single(a, map[p := a], Free, h), WriteLock(Update(p, b)));
    es := es + [WriteLock(Update(p, b))];
    s := Single(a, map[p := a], Holding(Update(p, b)), h);
    Extend(Empty(), es, s, ChangeStore(true));
    es := es + [ChangeStore(true)];
    var h' := h + [(Update(p, b), Done)];
    assert Apply(SetFields, s, ChangeStore(true)) == Single(a, map[p := a], Caching(p, Some(b)), h');
    Extend(Empty(), es, Single(a, map[p := a], Caching(p, Some(b)), h'), ChangeCache);
    es := es + [ChangeCache];
    assert map[p := a][p := b] == map[p := b] && h' == [(Add(p, a), Done), (Update(p, b), Done)];
  }

  /** The writer is about to change the URL of a stored proxy route. */
  predicate AboutToChangeUrl(s: Coll<string, Route>) {
    && s.writer.Holding? && s.writer.op.Update? && s.writer.op.k in s.stored
    && ChangesUrl(s.stored[s.writer.op.k], s.writer.op.v)
  }

  /** The store and the cache change, the entry is evicted, and a reader looks the route up. */
  function ForgetEvents(k: string): seq<Event<string, Route>> {
    [ChangeStore(true), ChangeCache, Evict(k), ReadLock(0, k), Load(0, true), Publish(0)]
  }

  /** The states in between. */
  function Forgetting(s: Coll<string, Route>, n: nat): Coll<string, Route>
    requires AboutToChangeUrl(s) && n <= 6
  {
    var k, v, row := s.writer.op.k, s.writer.op.v, s.stored[s.writer.op.k];
    var a := Record(s, s.writer.op, Done).(writer := Caching(k, Some(v)));
    match n
    case 0 => s
    case 1 => a
    case 2 => a.(cache := s.cache[k := v], writer := Free)
    case 3 => a.(cache := s.cache - {k}, writer := Free)
    case 4 => a.(cache := s.cache - {k}, writer := Free, readers := map[0 := Looking(k)])
    case 5 => a.(cache := s.cache - {k}, writer := Free, readers := map[0 := Loaded(k, Some(row))])
    case _ => Record(a, Get(k), Found(row)).(cache := (s.cache - {k})[k := row], writer := Free)
  }

  lemma ForgetStep(s: Coll<string, Route>, n: nat)
    requires AboutToChangeUrl(s) && RowsShaped(s) && s.readers == map[] && n < 6
    ensures var e := ForgetEvents(s.writer.op.k)[n];
            Enabled(Forgetting(s, n), e) && Apply(SetFields, Forgetting(s, n), e) == Forgetting(s, n + 1)
  {
    var k, row := s.writer.op.k, s.stored[s.writer.op.k];
    if n == 0 {
      assert SetFields(row, s.writer.op.v) == Some(row) && s.stored[k := row] == s.stored;
    } else if n == 2 {
      assert s.cache[k := s.writer.op.v] - {k} == s.cache - {k};
    } else if n == 5 {
      assert map[0 := Reader<string, Route>.Loaded(k, Some(row))] - {0} == map[];
    }
  }

  /** What the store, which has no URL to set, makes of it: the next reader finds the old one. */
  lemma ForgottenIsNotLinear(s: Coll<string, Route>)
    requires AboutToChangeUrl(s)
    ensures !Linear(SetFields, Forgetting(s, 6).history)
  {
    var h := Forgetting(s, 6).history;
    var k := s.writer.op.k;
    assert h[..|h| - 1] == s.history + [(s.writer.op, Done)];
    assert h[..|h| - 1][..|h| - 2] == s.history;
    assert Replay(h[..|h| - 1]) == PlainAfter(Replay(s.history), s.writer.op, Done);
    assert Replay(h[..|h| - 1])[k] == s.writer.op.v != s.stored[k];
  }

  /** From any state in which a URL is about to be changed the collection can go on to forget the new one. */
  lemma ChangedUrlIsForgotten(s0: Coll<string, Route>, es: seq<Event<string, Route>>, s: Coll<string, Route>)
    returns (s': Coll<string, Route>)
    requires Executes(SetFields, s0, es, s) && AboutToChangeUrl(s) && RowsShaped(s) && s.readers == map[]
    ensures Executes(SetFields, s0, es + ForgetEvents(s.writer.op.k), s') && !Linear(SetFields, s'.history)
  {
    var all, done := ForgetEvents(s.writer.op.k), es;
    for n := 0 to 6
      invariant done == es + all[..n] && Executes(SetFields, s0, done, Forgetting(s, n))
    {
      ForgetStep(s, n);
      Extend(s0, done, Forgetting(s, n), all[n]);
      done := done + [all[n]];
    }
    assert all[..6] == all;
    ForgottenIsNotLinear(s);
    s' := Forgetting(s, 6);
  }

  /** Where a run that is not quiet changes a URL for the first time. */
  lemma {:induction false} FirstChange(s: Coll<string, Route>, es: seq<Event<string, Route>>, s': Coll<string, Route>)
    returns (j: nat, m: Coll<string, Route>)
    requires RowsShaped(s) && LockDiscipline(s) && TypedRun(es) && Executes(SetFields, s, es, s') && !QuietRun(s, es)
    ensures j < |es| && Executes(SetFields, s, es[..j], m) && QuietRun(s, es[..j])
    ensures AboutToChangeUrl(m) && es[j] == ChangeStore(true) && RowsShaped(m) && m.readers == map[]
    decreases |es|
  {
    if QuietStep(s, es[0]) {
      var n := Apply(SetFields, s, es[0]);
      TypedTail(es);
      StepKeepsShape(s, es[0]);
      j, m := FirstChange(n, es[1..], s');
      assert es[..j + 1][0] == es[0] && es[..j + 1][1..] == es[1..][..j];
      j := j + 1;
    } else {
      j, m := 0, s;
    }
  }

  /**
   * A run in which a stored proxy's URL is changed: cut at the first change, it can go on so that a lookup answers
   * with the replaced URL, which no plain map would.
   */
  lemma NoisyRunCanForget(es: seq<Event<string, Route>>, s: Coll<string, Route>)
    returns (j: nat, k: string, s': Coll<string, Route>)
    requires Executes(SetFields, Empty(), es, s) && TypedRun(es) && !QuietRun(Empty(), es)
    ensures j < |es| && QuietRun(Empty(), es[..j]) && es[j] == ChangeStore(true)
    ensures Executes(SetFields, Empty(), es[..j] + ForgetEvents(k), s') && !Linear(SetFields, s'.history)
  {
    var m;
    j, m := FirstChange(Empty(), es, s);
    k := m.writer.op.k;
    s' := ChangedUrlIsForgotten(Empty(), es[..j], m);
  }

  /** After an eviction a lookup then answers with the URL that was replaced, which no plain map would. */
  lemma ProxyUpdateIsForgotten(p: string, url: string, other: string)
    returns (es: seq<Event<string, Route>>, s: Coll<string, Route>)
    requires url != other
    ensures Executes(SetFields, Empty(), es, s) && TypedRun(es)
    ensures s.history
         == [(Add(p, ProxyRoute(p, url)), Done), (Update(p, ProxyRoute(p, other)), Done),
             (Get(p), Found(ProxyRoute(p, url)))]
    ensures !Linear(SetFields, s.history)
  {
    var a, b := ProxyRoute(p, url), ProxyRoute(p, other);
    var h := [(Add(p, a), Done), (Update(p, b), Done)];
    es := ProxyUpdateLeavesRowOld(p, url, other);
    s := Single(a, map[p := b], Free, h);
    Extend(Empty(), es, s, Evict(p));
    es, s := es + [Evict(p)], Apply(SetFields, s, Evict(p));
    Extend(Empty(), es, s, ReadLock(0, p));
    es, s := es + [ReadLock(0, p)], Apply(SetFields, s, ReadLock(0, p));
    Extend(Empty(), es, s, Load(0, true));
    es, s := es + [Load(0, true)], Apply(SetFields, s, Load(0, true));
    Extend(Empty(), es, s, Publish(0));
    es, s := es + [Publish(0)], Apply(SetFields, s, Publish(0));
  }
}

/**
 * The routes up to the URLs of proxy routes, in every run of the typed endpoint functions: what is left when the URLs
 * are blotted out is a collection of its own, in which no URL can be changed.
 */
module RoutesUpToUrl {
  import opened Basics
  import opened CachedCollection
  import opened Routes

  function Strip(r: Route): Route { r.(proxyURL := "") }

  function StripOption(o: Option<Route>): Option<Route> { if o.Some? then Some(Strip(o.value)) else None }

  function StripMap<K>(m: map<K, Route>): map<K, Route> { map k | k in m :: Strip(m[k]) }

  function StripOp(op: Op<string, Route>): Op<string, Route> {
    match op case Add(k, v) => Add(k, Strip(v)) case Update(k, v) => Update(k, Strip(v)) case _ => op
  }

  function StripRes(r: Res<Route>): Res<Route> { if r.Found? then Found(Strip(r.v)) else r }

  function StripReader(r: Reader<string, Route>): Reader<string, Route> {
    match r case Looking(_) => r case Loaded(k, found) => Loaded(k, StripOption(found))
  }

  function StripReaders(m: map<Tid, Reader<string, Route>>): map<Tid, Reader<string, Route>> {
    map t | t in m :: StripReader(m[t])
  }

  function StripWriter(w: Writer<string, Route>): Writer<string, Route> {
    match w case Free => w case Holding(op) => Holding(StripOp(op)) case Caching(k, v) => Caching(k, StripOption(v))
  }

  function StripHistory(h: seq<(Op<string, Route>, Res<Route>)>): (s: seq<(Op<string, Route>, Res<Route>)>)
    ensures |s| == |h|
  {
    seq(|h|, i requires 0 <= i < |h| => (StripOp(h[i].0), StripRes(h[i].1)))
  }

  function StripColl(s: Coll<string, Route>): Coll<string, Route> {
    Coll(StripMap(s.stored), StripMap(s.cache), StripReaders(s.readers), StripWriter(s.writer), StripHistory(s.history))
  }

  function StripEvent(e: Event<string, Route>): Event<string, Route> {
    if e.WriteLock? then WriteLock(StripOp(e.op)) else e
  }

  function StripEvents(es: seq<Event<string, Route>>): seq<Event<string, Route>> {
    seq(|es|, i requires 0 <= i < |es| => StripEvent(es[i]))
  }

  lemma StripPut<K>(m: map<K, Route>, k: K, v: Route)
    ensures StripMap(m[k := v]) == StripMap(m)[k := Strip(v)]
    ensures StripMap(m - {k}) == StripMap(m) - {k}
  {
  }

  lemma StripReaderPut(m: map<Tid, Reader<string, Route>>, t: Tid, r: Reader<string, Route>)
    ensures StripReaders(m[t := r]) == StripReaders(m)[t := StripReader(r)]
    ensures StripReaders(m - {t}) == StripReaders(m) - {t}
    ensures StripReaders(m) == map[] <==> m == map[]
  {
    if m != map[] {
      var u :| u in m;
      assert u in StripReaders(m);
    }
  }

  lemma StripRecord(h: seq<(Op<string, Route>, Res<Route>)>, op: Op<string, Route>, r: Res<Route>)
    ensures StripHistory(h + [(op, r)]) == StripHistory(h) + [(StripOp(op), StripRes(r))]
  {
  }

  lemma StripUpdate(row: Route, upd: Route)
    ensures SetFields(Strip(row), Strip(upd)) == StripOption(SetFields(row, upd))
  {
  }

  lemma StripStore(s: Coll<string, Route>, op: Op<string, Route>)
    ensures Store(SetFields, StripColl(s), StripOp(op)) == StripColl(Store(SetFields, s, op))
  {
    match op {
      case Add(k, v) =>
        StripRecord(s.history, op, if k in s.stored then Duplicate else Done);
        StripPut(s.stored, k, v);
      case Remove(k) =>
        StripRecord(s.history, op, Done);
        StripPut(s.stored, k, Route("", StaticEndpoint, "", "", ""));
      case Update(k, v) =>
        if k in s.stored {
          var row := SetFields(s.stored[k], v);
          StripUpdate(s.stored[k], v);
          StripRecord(s.history, op, if row.None? then NoSuch else Done);
          if row.Some? { StripPut(s.stored, k, row.value); }
        } else {
          StripRecord(s.history, op, NoSuch);
        }
      case Get(_) =>
    }
  }

  lemma StripReadStep(s: Coll<string, Route>, e: Event<string, Route>)
    requires Enabled(s, e) && (e.Hit? || e.Load? || e.Publish?)
    ensures Enabled(StripColl(s), e) && Apply(SetFields, StripColl(s), e) == StripColl(Apply(SetFields, s, e))
  {
    var r := s.readers[e.t];
    match e {
      case Hit(t) =>
        StripReaderPut(s.readers, t, r);
        StripRecord(s.history, Get(r.k), Found(s.cache[r.k]));
      case Load(t, ok) =>
        StripReaderPut(s.readers, t, Loaded(r.k, Lookup(s.stored, r.k)));
        StripRecord(s.history, Get(r.k), Failed);
      case Publish(t) =>
        StripReaderPut(s.readers, t, r);
        if r.found.Some? {
          StripRecord(s.history, Get(r.k), Found(r.found.value));
          StripPut(s.cache, r.k, r.found.value);
        } else {
          StripRecord(s.history, Get(r.k), NoSuch);
        }
    }
  }

  lemma StripStep(s: Coll<string, Route>, e: Event<string, Route>)
    requires Enabled(s, e)
    ensures Enabled(StripColl(s), StripEvent(e))
    ensures Apply(SetFields, StripColl(s), StripEvent(e)) == StripColl(Apply(SetFields, s, e))
  {
    match e {
      case ReadLock(t, k) => StripReaderPut(s.readers, t, Looking(k));
      case WriteLock(op) => StripReaderPut(s.readers, 0, Looking(op.k));
      case ChangeStore(ok) =>
        if ok { StripStore(s, s.writer.op); } else { StripRecord(s.history, s.writer.op, Failed); }
      case ChangeCache =>
        StripPut(s.cache, s.writer.k,
                 if s.writer.v.Some? then s.writer.v.value else Route("", StaticEndpoint, "", "", ""));
      case Evict(k) => StripPut(s.cache, k, Route("", StaticEndpoint, "", "", ""));
      case _ => StripReadStep(s, e);
    }
  }

  lemma {:induction false} StripRun(s: Coll<string, Route>, es: seq<Event<string, Route>>, s': Coll<string, Route>)
    requires Executes(SetFields, s, es, s')
    ensures Executes(SetFields, StripColl(s), StripEvents(es), StripColl(s')) && QuietRun(StripColl(s), StripEvents(es))
    decreases |es|
  {
    if es != [] {
      StripStep(s, es[0]);
      StripRun(Apply(SetFields, s, es[0]), es[1..], s');
      assert StripEvents(es)[0] == StripEvent(es[0]) && StripEvents(es)[1..] == StripEvents(es[1..]);
    }
  }

  /** A lookup that answers with a static or dynamic route answers with what the plain map has. */
  ghost predicate AnswersExactly(h: seq<(Op<string, Route>, Res<Route>)>) {
    forall i :: 0 <= i < |h| && h[i].1.Found? && !h[i].1.v.typ.ProxyEndpoint? ==>
      var plain := Replay(StripHistory(h)[..i]);
      h[i].0.k in plain && plain[h[i].0.k] == h[i].1.v
  }

  lemma LinearAnswers(h: seq<(Op<string, Route>, Res<Route>)>)
    requires Linear(SetFields, StripHistory(h)) && ShapedResults(h)
    ensures AnswersExactly(h)
  {
    forall i | 0 <= i < |h| && h[i].1.Found? && !h[i].1.v.typ.ProxyEndpoint?
      ensures var plain := Replay(StripHistory(h)[..i]);
              h[i].0.k in plain && plain[h[i].0.k] == h[i].1.v
    {
      LinearAt(SetFields, StripHistory(h), i);
      assert Strip(h[i].1.v) == h[i].1.v;
    }
  }

  /**
   * Every run of the typed endpoint functions, proxy updates and all: up to the URLs of proxy routes the collection
   * is a plain map. Static and dynamic routes are therefore exactly what is stored, in the cache and in every answer.
   */
  lemma RoutesAreTransparentUpToUrl(es: seq<Event<string, Route>>, s: Coll<string, Route>)
    requires Executes(SetFields, Empty(), es, s) && TypedRun(es)
    ensures Linear(SetFields, StripHistory(s.history)) && Replay(StripHistory(s.history)) == StripMap(s.stored)
    ensures Coherent(StripColl(s)) && LoadsAreCurrent(StripColl(s))
    ensures forall k :: k in s.cache && !s.cache[k].typ.ProxyEndpoint? && !(s.writer.Caching? && s.writer.k == k) ==>
                          k in s.stored && s.cache[k] == s.stored[k]
    ensures AnswersExactly(s.history)
  {
    StripRun(Empty(), es, s);
    assert StripColl(Empty()) == Empty();
    TypedEvents(es);
    RoutesAreTransparent(StripEvents(es), StripColl(s));
    RunKeepsShape(Empty(), es, s);
    LinearAnswers(s.history);
    forall k | k in s.cache && !s.cache[k].typ.ProxyEndpoint? && !(s.writer.Caching? && s.writer.k == k)
      ensures k in s.stored && s.cache[k] == s.stored[k]
    {
      CachedIsStored(s, k);
    }
  }

  lemma CachedIsStored(s: Coll<string, Route>, k: string)
    requires Coherent(StripColl(s)) && RowsShaped(s)
    requires k in s.cache && !s.cache[k].typ.ProxyEndpoint? && !(s.writer.Caching? && s.writer.k == k)
    ensures k in s.stored && s.cache[k] == s.stored[k]
  {
    assert k in StripColl(s).cache;
    assert Strip(s.cache[k]) == s.cache[k] && Strip(s.stored[k]) == s.stored[k];
  }

  lemma TypedEvents(es: seq<Event<string, Route>>)
    requires TypedRun(es)
    ensures TypedRun(StripEvents(es))
  {
    forall i | 0 <= i < |StripEvents(es)| && StripEvents(es)[i].WriteLock? ensures TypedOp(StripEvents(es)[i].op) {
      assert StripEvents(es)[i] == StripEvent(es[i]) && TypedOp(es[i].op);
    }
  }
}
