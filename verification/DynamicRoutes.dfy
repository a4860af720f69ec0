/**
 * The dynamic routes of internal/server/dynamic_routes_api.go, as a machine over the route table and the script files.
 * A handler is not atomic: a POST writes its file and then adds the route, a PUT looks the script up and then writes
 * it, and any number of handlers interleave. The table is the plain map that the cached collection stands for.
 */
module DynamicRoutes {
  import opened Basics
  import opened FileStorage
  import opened Routes
  import C = CodeWrappers

  type Hid = nat

  /** A POST that has written its file, and a PUT that has looked its script up. */
  datatype Posted = Posted(path: string, code: string, name: string)
  datatype Looked = Looked(path: string, code: string, script: string)

  /** What a write has made of a script file: the whole wrapped code, or only the front of it. */
  datatype Copy = Whole(code: string) | Front(code: string, front: string)

  /**
   * Beside the table and the files: the handlers under way; the script names generated so far; and for every live
   * dynamic route the last write of its script and the code that was last acknowledged. A POST is acknowledged when
   * its route is added, a PUT as soon as its script is found, before it is written.
   */
  datatype Site = Site(routes: map<string, Route>, files: map<string, string>, posts: map<Hid, Posted>,
                       puts: map<Hid, Looked>, used: set<string>, writes: map<string, Copy>, acks: map<string, string>)

  datatype Event =
    | PostWrite(h: Hid, path: string, code: string, name: string, o: Outcome)
    | PostAdd(h: Hid, ok: bool)
    | PutLookup(h: Hid, path: string, code: string)
    | PutWrite(h: Hid, o: Outcome)
    | Delete(path: string)
    | AddOther(path: string, r: Route)
    | UpdateOther(path: string, r: Route)

  function Empty(): Site { Site(map[], map[], map[], map[], {}, map[], map[]) }

  function File(code: string): string { C.Wrap(C.DynHandle, code) }

  function Text(c: Copy): string { match c case Whole(code) => File(code) case Front(_, front) => front }

  predicate IsDynamic(s: Site, p: string) { p in s.routes && s.routes[p].typ.DynamicEndpoint? }

  predicate Enabled(s: Site, e: Event) {
    match e
    case PostWrite(h, _, code, _, o) => h !in s.posts && h !in s.puts && Possible(File(code), o)
    case PostAdd(h, _) => h in s.posts
    case PutLookup(h, path, _) => h !in s.posts && h !in s.puts
    case PutWrite(h, o) => h in s.puts && Possible(File(s.puts[h].code), o)
    case Delete(_) => true
    case AddOther(path, r) => !r.typ.DynamicEndpoint? && Shaped(path, r)
    case UpdateOther(path, r) => !r.typ.DynamicEndpoint? && Shaped(path, r)
  }

  /** The script is written under the generated name; if that fails the handler gives up. */
  function WritePosted(s: Site, h: Hid, p: Posted, o: Outcome): Site {
    s.(files := AfterWrite(s.files, p.name, File(p.code), o), used := s.used + {p.name},
       posts := if o.Written? then s.posts[h := p] else s.posts)
  }

  /** The route is added under its path, if the store takes it and the path is free. */
  function AddPosted(s: Site, h: Hid, ok: bool): Site
    requires h in s.posts
  {
    var p := s.posts[h];
    var s' := s.(posts := s.posts - {h});
    if ok && p.path !in s.routes then
      s'.(routes := s.routes[p.path := DynamicRoute(p.path, p.name)], writes := s.writes[p.path := Whole(p.code)],
          acks := s.acks[p.path := p.code])
    else s'
  }

  function WritePut(s: Site, h: Hid, o: Outcome): Site
    requires h in s.puts
  {
    var p := s.puts[h];
    var current := IsDynamic(s, p.path) && s.routes[p.path].scriptName == p.script;
    s.(puts := s.puts - {h}, files := AfterWrite(s.files, p.script, File(p.code), o),
       writes := if !current || o.NotCreated? then s.writes
                 else s.writes[p.path := if o.Written? then Whole(p.code) else Front(p.code, o.front)])
  }

  function Apply(s: Site, e: Event): Site
    requires Enabled(s, e)
  {
    match e
    case PostWrite(h, path, code, name, o) => WritePosted(s, h, Posted(path, code, name), o)
    case PostAdd(h, ok) => AddPosted(s, h, ok)
    case PutLookup(h, path, code) =>
      if IsDynamic(s, path)
      then s.(puts := s.puts[h := Looked(path, code, s.routes[path].scriptName)], acks := s.acks[path := code])
      else s
    case PutWrite(h, o) => WritePut(s, h, o)
    case Delete(path) => s.(routes := s.routes - {path}, writes := s.writes - {path}, acks := s.acks - {path})
    case AddOther(path, r) => if path in s.routes then s else s.(routes := s.routes[path := r])
    case UpdateOther(path, r) =>
      if path in s.routes && SetFields(s.routes[path], r).Some?
      then s.(routes := s.routes[path := SetFields(s.routes[path], r).value]) else s
  }

  ghost predicate Executes(s: Site, es: seq<Event>, s': Site)
    decreases |es|
  {
    if es == [] then s' == s else Enabled(s, es[0]) && Executes(Apply(s, es[0]), es[1..], s')
  }

  /** What `GET .../code` answers: no such dynamic route, no such file, a panic while unwrapping, or the code. */
  datatype Reply = NotFound | Unreadable | Panic | Code(text: string)

  function GetCode(s: Site, path: string): Reply {
    if !IsDynamic(s, path) then NotFound
    else if s.routes[path].scriptName !in s.files then Unreadable
    else match C.Unwrap(s.files[s.routes[path].scriptName]) case None => Panic case Some(text) => Code(text)
  }

  // ----- invariant -----

  function Script(s: Site, p: string): string
    requires p in s.routes
  {
    s.routes[p].scriptName
  }

  /** The last writes and the acknowledged codes are kept for the live dynamic routes; each file holds its write. */
  ghost predicate FilesHoldWrites(s: Site) {
    && (forall p :: p in s.writes <==> IsDynamic(s, p))
    && (forall p :: p in s.acks <==> IsDynamic(s, p))
    && (forall p :: p in s.writes ==> Script(s, p) in s.files && s.files[Script(s, p)] == Text(s.writes[p]))
  }

  ghost predicate ScriptsDistinct(s: Site) {
    forall p, q :: IsDynamic(s, p) && IsDynamic(s, q) && Script(s, p) == Script(s, q) ==> p == q
  }

  /** A POST under way has its file in place, under a name nobody else has. */
  ghost predicate PostsReady(s: Site) {
    && (forall h :: h in s.posts ==>
          s.posts[h].name in s.files && s.files[s.posts[h].name] == File(s.posts[h].code))
    && (forall h, p :: h in s.posts && IsDynamic(s, p) ==> Script(s, p) != s.posts[h].name)
    && (forall h, g :: h in s.posts && g in s.posts && s.posts[h].name == s.posts[g].name ==> h == g)
  }

  /** A PUT under way will write the file of its own path, or a file no route uses any more. */
  ghost predicate PutsAimed(s: Site) {
    && (forall h, p :: h in s.puts && IsDynamic(s, p) && Script(s, p) == s.puts[h].script ==> p == s.puts[h].path)
    && (forall h, g :: h in s.puts && g in s.posts ==> s.puts[h].script != s.posts[g].name)
  }

  ghost predicate SiteInv(s: Site) {
    FilesHoldWrites(s) && ScriptsDistinct(s) && PostsReady(s) && PutsAimed(s)
  }

  // ----- when a generated name does no harm -----

  /** Nobody has the name: no live route, no POST under way, and no PUT under way. */
  ghost predicate Free(s: Site, name: string) {
    && (forall p :: IsDynamic(s, p) ==> Script(s, p) != name)
    && (forall h :: h in s.posts ==> s.posts[h].name != name)
    && (forall h :: h in s.puts ==> s.puts[h].script != name)
  }

  /**
   * A write that could not create the file does nothing. One that was cut short leaves a file that will not be used,
   * and must only not change one that is or will be. A complete one needs the name for itself.
   */
  ghost predicate Harmless(s: Site, name: string, o: Outcome) {
    match o
    case NotCreated => true
    case Cut(front) =>
      && (forall p :: p in s.writes && IsDynamic(s, p) && Script(s, p) == name ==> Text(s.writes[p]) == front)
      && (forall h :: h in s.posts && s.posts[h].name == name ==> File(s.posts[h].code) == front)
    case Written => Free(s, name)
  }

  lemma PostWriteKeepsWrites(s: Site, h: Hid, p: Posted, o: Outcome)
    requires FilesHoldWrites(s) && ScriptsDistinct(s) && Harmless(s, p.name, o)
    ensures FilesHoldWrites(WritePosted(s, h, p, o)) && ScriptsDistinct(WritePosted(s, h, p, o))
  {
    assert forall q :: IsDynamic(WritePosted(s, h, p, o), q) <==> IsDynamic(s, q);
  }

  lemma PostWriteKeepsOtherPosts(s: Site, h: Hid, p: Posted, o: Outcome)
    requires PostsReady(s) && !o.Written? && Harmless(s, p.name, o)
    ensures PostsReady(WritePosted(s, h, p, o))
  {
    assert forall q :: IsDynamic(WritePosted(s, h, p, o), q) <==> IsDynamic(s, q);
  }

  lemma PostJoinsPosts(s: Site, h: Hid, p: Posted)
    requires PostsReady(s) && h !in s.posts && Free(s, p.name)
    ensures PostsReady(WritePosted(s, h, p, Written))
  {
    assert forall q :: IsDynamic(WritePosted(s, h, p, Written), q) <==> IsDynamic(s, q);
  }

  lemma PostWriteKeepsPosts(s: Site, h: Hid, p: Posted, o: Outcome)
    requires PostsReady(s) && h !in s.posts && Harmless(s, p.name, o)
    ensures PostsReady(WritePosted(s, h, p, o))
  {
    if o.Written? { PostJoinsPosts(s, h, p); } else { PostWriteKeepsOtherPosts(s, h, p, o); }
  }

  lemma PostWriteKeepsPuts(s: Site, h: Hid, p: Posted, o: Outcome)
    requires PutsAimed(s) && h !in s.posts && Harmless(s, p.name, o)
    ensures PutsAimed(WritePosted(s, h, p, o))
  {
    assert forall q :: IsDynamic(WritePosted(s, h, p, o), q) <==> IsDynamic(s, q);
  }

  lemma PostWriteKeeps(s: Site, h: Hid, p: Posted, o: Outcome)
    requires SiteInv(s) && h !in s.posts && Harmless(s, p.name, o)
    ensures SiteInv(WritePosted(s, h, p, o))
  {
    PostWriteKeepsWrites(s, h, p, o);
    PostWriteKeepsPosts(s, h, p, o);
    PostWriteKeepsPuts(s, h, p, o);
  }

  /** A name somebody has: the new POST shares a file with a live route, another POST or a PUT. */
  lemma SharedNameHarms(s: Site, h: Hid, p: Posted)
    requires SiteInv(s) && h !in s.posts && !Free(s, p.name)
    ensures !SiteInv(WritePosted(s, h, p, Written))
  {
    var s' := WritePosted(s, h, p, Written);
    assert h in s'.posts && s'.posts[h] == p;
    if q :| IsDynamic(s, q) && Script(s, q) == p.name {
      assert IsDynamic(s', q);
    } else if g :| g in s.posts && s.posts[g].name == p.name {
      assert g in s'.posts && s'.posts[g].name == s'.posts[h].name && g != h;
    } else if g :| g in s.puts && s.puts[g].script == p.name {
      assert g in s'.puts && s'.puts[g].script == s'.posts[h].name;
    }
  }

  lemma CutHarms(s: Site, h: Hid, p: Posted, o: Outcome)
    requires SiteInv(s) && h !in s.posts && o.Cut? && !Harmless(s, p.name, o)
    ensures !SiteInv(WritePosted(s, h, p, o))
  {
    var s' := WritePosted(s, h, p, o);
    if q :| q in s.writes && IsDynamic(s, q) && Script(s, q) == p.name && Text(s.writes[q]) != o.front {
      assert q in s'.writes && s'.files[Script(s', q)] == o.front;
    } else if g :| g in s.posts && s.posts[g].name == p.name && File(s.posts[g].code) != o.front {
      assert g in s'.posts && s'.files[s'.posts[g].name] == o.front;
    }
  }

  /**
   * The exact condition for a repeated name, whatever becomes of the write: a POST keeps everything in place if and
   * only if the file is not created, or is cut short under a name whose file, if anybody needs it, looks the same
   * already, or is complete under a name that no live route, no other POST under way and no PUT under way has.
   */
  lemma PostWriteKeepsIff(s: Site, h: Hid, p: Posted, o: Outcome)
    requires SiteInv(s) && h !in s.posts
    ensures SiteInv(WritePosted(s, h, p, o)) <==> Harmless(s, p.name, o)
  {
    if Harmless(s, p.name, o) {
      PostWriteKeeps(s, h, p, o);
    } else if o.Written? {
      SharedNameHarms(s, h, p);
    } else {
      CutHarms(s, h, p, o);
    }
  }

  /**
   * What the live routes alone show at once: they keep their codes if and only if the write leaves the files of those
   * that have the name as they were; for a complete write over a complete one that means the same code.
   */
  lemma PostWriteServesIff(s: Site, h: Hid, p: Posted, o: Outcome)
    requires FilesHoldWrites(s)
    ensures FilesHoldWrites(WritePosted(s, h, p, o))
       <==> forall q :: q in s.writes && IsDynamic(s, q) && Script(s, q) == p.name ==>
              o.NotCreated? || Text(s.writes[q]) == if o.Written? then File(p.code) else o.front
    ensures forall q :: q in s.writes && s.writes[q].Whole? ==>
              (Text(s.writes[q]) == File(p.code) <==> s.writes[q].code == p.code)
  {
    var s' := WritePosted(s, h, p, o);
    assert forall q :: IsDynamic(s', q) <==> IsDynamic(s, q);
    assert forall q :: q in s.writes ==> IsDynamic(s, q) && Script(s', q) == Script(s, q);
    forall q | q in s.writes && s.writes[q].Whole?
      ensures Text(s.writes[q]) == File(p.code) <==> s.writes[q].code == p.code
    {
      if Text(s.writes[q]) == File(p.code) { C.WrapIsInjective(C.DynHandle, s.writes[q].code, C.DynHandle, p.code); }
    }
  }

  /** Adding the route of a POST keeps the files in place if and only if its file still holds what it wrote. */
  lemma PostAddHoldsIff(s: Site, h: Hid, ok: bool)
    requires FilesHoldWrites(s) && h in s.posts
    ensures FilesHoldWrites(AddPosted(s, h, ok))
       <==> (ok && s.posts[h].path !in s.routes ==>
               s.posts[h].name in s.files && s.files[s.posts[h].name] == File(s.posts[h].code))
  {
    var s', p := AddPosted(s, h, ok), s.posts[h];
    if ok && p.path !in s.routes {
      assert forall q :: IsDynamic(s', q) <==> IsDynamic(s, q) || q == p.path;
      assert p.path in s'.writes && Script(s', p.path) == p.name && Text(s'.writes[p.path]) == File(p.code);
      forall q | q in s.writes ensures Script(s', q) == Script(s, q) && s'.writes[q] == s.writes[q] {
        assert IsDynamic(s, q);
      }
    }
  }

  /** And it keeps the scripts of the live routes distinct if and only if its name is not one of them. */
  lemma PostAddDistinctIff(s: Site, h: Hid)
    requires ScriptsDistinct(s) && h in s.posts && s.posts[h].path !in s.routes
    ensures ScriptsDistinct(AddPosted(s, h, true))
       <==> forall p :: IsDynamic(s, p) ==> Script(s, p) != s.posts[h].name
  {
    var s', path := AddPosted(s, h, true), s.posts[h].path;
    forall p | IsDynamic(s, p) ensures IsDynamic(s', p) && Script(s', p) == Script(s, p) && p != path {}
    assert IsDynamic(s', path) && Script(s', path) == s.posts[h].name;
  }

  // ----- the other steps -----

  /** The only dynamic route that adding a posted route can bring has the posted name. */
  lemma PostAddBrings(s: Site, h: Hid, ok: bool)
    requires h in s.posts
    ensures forall q :: IsDynamic(AddPosted(s, h, ok), q) ==>
              || (IsDynamic(s, q) && Script(AddPosted(s, h, ok), q) == Script(s, q))
              || Script(AddPosted(s, h, ok), q) == s.posts[h].name
  {
  }

  lemma PostAddKeepsPosts(s: Site, h: Hid, ok: bool)
    requires PostsReady(s) && h in s.posts
    ensures PostsReady(AddPosted(s, h, ok))
  {
    PostAddBrings(s, h, ok);
  }

  lemma PostAddKeepsPuts(s: Site, h: Hid, ok: bool)
    requires PutsAimed(s) && h in s.posts
    ensures PutsAimed(AddPosted(s, h, ok))
  {
    PostAddBrings(s, h, ok);
  }

  lemma PostAddKeeps(s: Site, h: Hid, ok: bool)
    requires SiteInv(s) && h in s.posts
    ensures SiteInv(AddPosted(s, h, ok))
  {
    PostAddHoldsIff(s, h, ok);
    if ok && s.posts[h].path !in s.routes { PostAddDistinctIff(s, h); }
    PostAddKeepsPosts(s, h, ok);
    PostAddKeepsPuts(s, h, ok);
  }

  lemma PutWriteKeepsWrites(s: Site, h: Hid, o: Outcome)
    requires FilesHoldWrites(s) && PutsAimed(s) && h in s.puts
    ensures FilesHoldWrites(WritePut(s, h, o))
  {
    var s', p := WritePut(s, h, o), s.puts[h];
    assert s'.routes == s.routes;
    forall q | q in s'.writes
      ensures Script(s, q) in s'.files && s'.files[Script(s, q)] == Text(s'.writes[q])
    {
      assert q in s.writes;
      if Script(s, q) == p.script {
        assert q == p.path;
      }
    }
  }

  /** A write to a file that no POST needs. */
  lemma OtherFilesStay(s: Site, s': Site, name: string)
    requires PostsReady(s) && s'.routes == s.routes && s'.posts == s.posts
    requires forall f :: f in s.files && f != name ==> f in s'.files && s'.files[f] == s.files[f]
    requires forall h :: h in s.posts ==> s.posts[h].name != name
    ensures PostsReady(s')
  {
    assert forall q :: IsDynamic(s', q) <==> IsDynamic(s, q);
  }

  lemma PutWriteKeepsPosts(s: Site, h: Hid, o: Outcome)
    requires PostsReady(s) && PutsAimed(s) && h in s.puts
    ensures PostsReady(WritePut(s, h, o))
  {
    OtherFilesStay(s, WritePut(s, h, o), s.puts[h].script);
  }

  lemma PutWriteKeeps(s: Site, h: Hid, o: Outcome)
    requires SiteInv(s) && h in s.puts
    ensures SiteInv(WritePut(s, h, o))
  {
    PutWriteKeepsWrites(s, h, o);
    PutWriteKeepsPosts(s, h, o);
  }

  lemma DeleteKeeps(s: Site, path: string)
    requires SiteInv(s)
    ensures SiteInv(s.(routes := s.routes - {path}, writes := s.writes - {path}, acks := s.acks - {path}))
  {
  }

  lemma LookupKeepsPuts(s: Site, s': Site, h: Hid, p: Looked)
    requires ScriptsDistinct(s) && PostsReady(s) && PutsAimed(s)
    requires IsDynamic(s, p.path) && Script(s, p.path) == p.script
    requires s'.routes == s.routes && s'.posts == s.posts && s'.puts == s.puts[h := p]
    ensures PutsAimed(s')
  {
    assert forall q :: IsDynamic(s', q) <==> IsDynamic(s, q);
  }

  lemma LookupKeeps(s: Site, h: Hid, path: string, code: string)
    requires SiteInv(s) && IsDynamic(s, path)
    ensures SiteInv(s.(puts := s.puts[h := Looked(path, code, Script(s, path))], acks := s.acks[path := code]))
  {
    var s' := s.(puts := s.puts[h := Looked(path, code, Script(s, path))], acks := s.acks[path := code]);
    LookupKeepsPuts(s, s', h, Looked(path, code, Script(s, path)));
    assert forall q :: IsDynamic(s', q) <==> IsDynamic(s, q);
    assert FilesHoldWrites(s');
    assert PostsReady(s');
  }

  /** A change of the table that leaves the dynamic routes as they are. */
  lemma OtherRoutesKeep(s: Site, routes: map<string, Route>)
    requires SiteInv(s)
    requires forall p :: IsDynamic(s, p) <==> p in routes && routes[p].typ.DynamicEndpoint?
    requires forall p :: IsDynamic(s, p) ==> routes[p] == s.routes[p]
    ensures SiteInv(s.(routes := routes))
  {
    var s' := s.(routes := routes);
    assert forall p :: IsDynamic(s', p) <==> IsDynamic(s, p);
    assert forall p :: IsDynamic(s, p) ==> Script(s', p) == Script(s, p);
  }

  lemma OtherStepKeepsDynamic(s: Site, e: Event)
    requires Enabled(s, e) && (e.AddOther? || e.UpdateOther?)
    ensures Apply(s, e) == s.(routes := Apply(s, e).routes)
    ensures forall p :: IsDynamic(s, p) <==> IsDynamic(Apply(s, e), p)
    ensures forall p :: IsDynamic(s, p) ==> Apply(s, e).routes[p] == s.routes[p]
  {
  }

  lemma OtherStepKeeps(s: Site, e: Event)
    requires SiteInv(s) && Enabled(s, e) && (e.AddOther? || e.UpdateOther?)
    ensures SiteInv(Apply(s, e))
  {
    var routes := Apply(s, e).routes;
    OtherStepKeepsDynamic(s, e);
    forall p ensures IsDynamic(s, p) <==> p in routes && routes[p].typ.DynamicEndpoint? {
      assert IsDynamic(s, p) <==> IsDynamic(Apply(s, e), p);
    }
    OtherRoutesKeep(s, routes);
  }

  ghost predicate HarmlessStep(s: Site, e: Event) { e.PostWrite? ==> Harmless(s, e.name, e.o) }

  /** Every step but the write of a POST keeps everything in place, and that one exactly if its name does no harm. */
  lemma StepKeepsIff(s: Site, e: Event)
    requires SiteInv(s) && Enabled(s, e)
    ensures SiteInv(Apply(s, e)) <==> HarmlessStep(s, e)
  {
    match e {
      case PostWrite(h, path, code, name, o) => PostWriteKeepsIff(s, h, Posted(path, code, name), o);
      case PostAdd(h, ok) => PostAddKeeps(s, h, ok);
      case PutWrite(h, o) => PutWriteKeeps(s, h, o);
      case PutLookup(h, path, code) => if IsDynamic(s, path) { LookupKeeps(s, h, path, code); }
      case Delete(path) => DeleteKeeps(s, path);
      case _ => OtherStepKeeps(s, e);
    }
  }

  // ----- runs -----

  ghost predicate HarmlessRun(s: Site, es: seq<Event>)
    decreases |es|
  {
    es == [] || (Enabled(s, es[0]) && HarmlessStep(s, es[0]) && HarmlessRun(Apply(s, es[0]), es[1..]))
  }

  ghost predicate InPlaceAlong(s: Site, es: seq<Event>)
    decreases |es|
  {
    SiteInv(s) && (es == [] || (Enabled(s, es[0]) && InPlaceAlong(Apply(s, es[0]), es[1..])))
  }

  /** The exact condition for a run. */
  lemma {:induction false} RunKeepsIff(s: Site, es: seq<Event>, s': Site)
    requires SiteInv(s) && Executes(s, es, s')
    ensures InPlaceAlong(s, es) <==> HarmlessRun(s, es)
    ensures HarmlessRun(s, es) ==> SiteInv(s')
    decreases |es|
  {
    if es != [] {
      StepKeepsIff(s, es[0]);
      if HarmlessStep(s, es[0]) { RunKeepsIff(Apply(s, es[0]), es[1..], s'); }
    }
  }

  /** Every name anybody has was generated. */
  ghost predicate NamesUsed(s: Site) {
    && (forall p :: IsDynamic(s, p) ==> Script(s, p) in s.used)
    && (forall h :: h in s.posts ==> s.posts[h].name in s.used)
    && (forall h :: h in s.puts ==> s.puts[h].script in s.used)
  }

  lemma TableStepKeepsUsed(s: Site, e: Event)
    requires NamesUsed(s) && Enabled(s, e) && (e.PostAdd? || e.AddOther? || e.UpdateOther?)
    ensures NamesUsed(Apply(s, e))
  {
    if e.PostAdd? { PostAddBrings(s, e.h, e.ok); } else { OtherStepKeepsDynamic(s, e); }
  }

  lemma StepKeepsUsed(s: Site, e: Event)
    requires NamesUsed(s) && Enabled(s, e)
    ensures NamesUsed(Apply(s, e))
  {
    if e.PostAdd? || e.AddOther? || e.UpdateOther? {
      TableStepKeepsUsed(s, e);
    } else {
      assert forall p :: IsDynamic(Apply(s, e), p) ==> IsDynamic(s, p) && Script(Apply(s, e), p) == Script(s, p);
    }
  }

  /** The names generated in the run are pairwise different, and none is in `used`. */
  ghost predicate FreshNames(used: set<string>, es: seq<Event>) {
    && (forall i :: 0 <= i < |es| && es[i].PostWrite? ==> es[i].name !in used)
    && (forall i, j :: 0 <= i < j < |es| && es[i].PostWrite? && es[j].PostWrite? ==> es[i].name != es[j].name)
  }

  lemma FreshTail(s: Site, es: seq<Event>)
    requires es != [] && Enabled(s, es[0]) && FreshNames(s.used, es)
    ensures FreshNames(Apply(s, es[0]).used, es[1..])
  {
    var used := Apply(s, es[0]).used;
    forall i | 0 <= i < |es[1..]| && es[1..][i].PostWrite? ensures es[1..][i].name !in used {
      assert es[1..][i] == es[i + 1];
    }
    forall i, j | 0 <= i < j < |es[1..]| && es[1..][i].PostWrite? && es[1..][j].PostWrite?
      ensures es[1..][i].name != es[1..][j].name
    {
      assert es[1..][i] == es[i + 1] && es[1..][j] == es[j + 1];
    }
  }

  lemma FreshIsFree(s: Site, e: Event)
    requires NamesUsed(s) && (e.PostWrite? ==> e.name !in s.used) && FilesHoldWrites(s)
    ensures HarmlessStep(s, e)
  {
  }

  /** Names that never repeat do no harm. */
  lemma {:induction false} FreshIsHarmless(s: Site, es: seq<Event>, s': Site)
    requires SiteInv(s) && NamesUsed(s) && Executes(s, es, s') && FreshNames(s.used, es)
    ensures HarmlessRun(s, es)
    decreases |es|
  {
    if es != [] {
      FreshTail(s, es);
      FreshIsFree(s, es[0]);
      StepKeepsIff(s, es[0]);
      StepKeepsUsed(s, es[0]);
      FreshIsHarmless(Apply(s, es[0]), es[1..], s');
    }
  }

  // ----- what a path answers -----

  /** Enough of the file was written for `GET` not to notice: all but a part of the last line. */
  predicate Reads(c: Copy) { c.Front? ==> |c.front| >= |C.LOAD_ARGS| + |c.code| + 3 }

  /** The lines of a text but the last one are shorter than the text, by the last line and its newline. */
  lemma WithoutLastLine(y: string)
    ensures var lines := C.Split(y);
            |C.Join(lines[..|lines| - 1], "\n")| + 1 <= |y| || (|lines| == 1 && C.Join(lines[..0], "\n") == "")
  {
    var lines := C.Split(y);
    C.JoinSplit(y);
    if |lines| > 1 {
      JoinLast(lines[..|lines| - 1], lines[|lines| - 1]);
      assert lines[..|lines| - 1] + [lines[|lines| - 1]] == lines;
    }
  }

  lemma {:induction false} JoinLast(lines: seq<string>, last: string)
    requires lines != []
    ensures C.Join(lines + [last], "\n") == C.Join(lines, "\n") + "\n" + last
  {
    if |lines| == 1 {
      assert (lines + [last])[1..] == [last];
    } else {
      JoinLast(lines[1..], last);
      assert (lines + [last])[1..] == lines[1..] + [last];
      var rest := C.Join(lines[1..], "\n");
      assert lines[0] + "\n" + (rest + "\n" + last) == (lines[0] + "\n" + rest) + "\n" + last;
    }
  }

  lemma LinesBetween(a: seq<string>, b: seq<string>)
    requires |a| == 4 && b != []
    ensures (a + b)[4..|a + b| - 1] == b[..|b| - 1] && |a + b| - 1 >= 4
  {
  }

  /** Four lines of a head, and more. */
  lemma HeadAndMore(head: string, y: string)
    requires |C.Split(head)| == 4
    ensures var lines := C.Split(y); C.Unwrap(head + "\n" + y) == Some(C.Join(lines[..|lines| - 1], "\n"))
  {
    var all := C.Split(head + "\n" + y);
    C.SplitConcat(head, y);
    LinesBetween(C.Split(head), C.Split(y));
    assert C.Unwrap(head + "\n" + y) == Some(C.Join(all[4..|all| - 1], "\n"));
  }

  /** A front that ends within the head has fewer lines than are cut off. */
  lemma HeadOnly(front: string)
    requires front <= C.LOAD_ARGS
    ensures C.Unwrap(front) == None
  {
    C.UnwrapPanicsIff(front);
    C.SplitLoadArgs();
    C.SplitCounts(C.LOAD_ARGS);
    FewerNewlines(front, C.LOAD_ARGS);
  }

  lemma {:induction false} FewerNewlines(a: string, b: string)
    requires a <= b
    ensures C.CountNewlines(a) <= C.CountNewlines(b)
  {
    if a != [] { FewerNewlines(a[1..], b[1..]); }
  }

  /** A front that reaches into the last line. */
  lemma FrontShape(head: string, code: string, last: string, front: string)
    requires front <= head + "\n" + code + "\n" + ("\n" + last) && |front| >= |head| + |code| + 3
    ensures var n := |head| + |code| + 3;
            |front| - n <= |last| && front == head + "\n" + code + "\n" + ("\n" + last[..|front| - n])
  {
    var text, n := head + "\n" + code + "\n" + ("\n" + last), |head| + |code| + 3;
    assert text[..n] == head + "\n" + code + "\n" + "\n" && text[n..] == last;
    assert front == text[..|front|] == text[..n] + last[..|front| - n];
  }

  /** The last line is there, or the beginning of it: the code comes back, as from the whole file. */
  lemma LongFrontReads(code: string, front: string)
    requires front < File(code) && |front| >= |C.LOAD_ARGS| + |code| + 3
    ensures C.Unwrap(front) == Some(code + "\n")
  {
    FrontShape(C.LOAD_ARGS, code, C.PRINT_DYN_HANDLE, front);
    var x := C.PRINT_DYN_HANDLE[..|front| - (|C.LOAD_ARGS| + |code| + 3)];
    PrintIsOneLine();
    C.SplitNewlineThen(x);
    C.SplitLoadArgs();
    C.UnwrapBetween(C.LOAD_ARGS, code, "\n" + x);
  }

  lemma PrintIsOneLine()
    ensures C.OneLine(C.PRINT_DYN_HANDLE)
  {
  }

  lemma ShortFrontDoesNot(code: string, front: string)
    requires front < File(code) && |front| < |C.LOAD_ARGS| + |code| + 3
    ensures C.Unwrap(front) != Some(code + "\n")
  {
    var n := |C.LOAD_ARGS|;
    if |front| <= n {
      assert front == File(code)[..|front|] == C.LOAD_ARGS[..|front|];
      HeadOnly(front);
    } else {
      var y := front[n + 1..];
      assert front[..n] == File(code)[..n] == C.LOAD_ARGS && front[n] == File(code)[n] == '\n';
      assert front == C.LOAD_ARGS + "\n" + y;
      C.SplitLoadArgs();
      HeadAndMore(C.LOAD_ARGS, y);
      WithoutLastLine(y);
    }
  }

  /** The exact condition for a write that was cut short. */
  lemma FrontReadsIff(c: Copy)
    requires c.Front? ==> c.front < File(c.code)
    ensures C.Unwrap(Text(c)) == Some(c.code + "\n") <==> Reads(c)
  {
    match c {
      case Whole(code) => C.UnwrapWrap(C.DynHandle, code);
      case Front(code, front) =>
        if Reads(c) { LongFrontReads(code, front); } else { ShortFrontDoesNot(code, front); }
    }
  }

  /** Fronts are proper. */
  ghost predicate CutsAreProper(s: Site) {
    forall p :: p in s.writes && s.writes[p].Front? ==> s.writes[p].front < File(s.writes[p].code)
  }

  lemma StepKeepsCuts(s: Site, e: Event)
    requires CutsAreProper(s) && Enabled(s, e)
    ensures CutsAreProper(Apply(s, e))
  {
    if !e.PutWrite? && !e.PostAdd? && !e.Delete? { assert Apply(s, e).writes == s.writes; }
  }

  lemma {:induction false} RunKeepsCuts(s: Site, es: seq<Event>, s': Site)
    requires CutsAreProper(s) && Executes(s, es, s')
    ensures CutsAreProper(s')
    decreases |es|
  {
    if es != [] {
      StepKeepsCuts(s, es[0]);
      RunKeepsCuts(Apply(s, es[0]), es[1..], s');
    }
  }

  /** A path answers with the code that was last written for it, and one newline, as far as the write went. */
  ghost predicate Serves(s: Site, path: string) {
    && (path !in s.writes ==> GetCode(s, path) == NotFound)
    && (path in s.writes ==> (GetCode(s, path) == Code(s.writes[path].code + "\n") <==> Reads(s.writes[path])))
  }

  lemma HeldCodeIsServed(s: Site, path: string)
    requires FilesHoldWrites(s) && CutsAreProper(s)
    ensures Serves(s, path)
  {
    if path in s.writes { FrontReadsIff(s.writes[path]); }
  }

  /**
   * After any interleaving of POST, PUT and DELETE handlers, accepted, rejected or failed, and of changes to the other
   * routes in the table, with script names that do no harm: reading a path answers with the code last written for it,
   * and no two live dynamic routes share a script file.
   */
  lemma RoutesServeLastCode(es: seq<Event>, s: Site)
    requires Executes(Empty(), es, s) && HarmlessRun(Empty(), es)
    ensures forall p :: Serves(s, p)
    ensures ScriptsDistinct(s)
  {
    RunKeepsIff(Empty(), es, s);
    RunKeepsCuts(Empty(), es, s);
    forall p ensures Serves(s, p) { HeldCodeIsServed(s, p); }
  }

  /** So it is if no name is ever generated twice. */
  lemma FreshNamesServe(es: seq<Event>, s: Site)
    requires Executes(Empty(), es, s) && FreshNames({}, es)
    ensures forall p :: Serves(s, p)
    ensures ScriptsDistinct(s)
  {
    FreshIsHarmless(Empty(), es, s);
    RoutesServeLastCode(es, s);
  }

  // ----- a PUT is acknowledged before it is written -----

  /**
   * The exact condition under which a path serves the code of a PUT, which was acknowledged whatever came after: the
   * write was complete, or far enough along; or the file could not be created and the path served that code before.
   */
  lemma PutServesAckIff(s: Site, h: Hid, path: string, code: string, o: Outcome)
    requires SiteInv(s) && h !in s.posts && h !in s.puts && IsDynamic(s, path) && Possible(File(code), o)
    ensures var s' := WritePut(Apply(s, PutLookup(h, path, code)), h, o);
            && s'.acks[path] == code
            && (GetCode(s', path) == Code(s'.acks[path] + "\n")
                <==> match o
                     case Written => true
                     case Cut(front) => Reads(Front(code, front))
                     case NotCreated => GetCode(s, path) == Code(code + "\n"))
  {
    var m := Apply(s, PutLookup(h, path, code));
    var s' := WritePut(m, h, o);
    LookupKeeps(s, h, path, code);
    PutWriteKeepsWrites(m, h, o);
    match o {
      case Written => FrontReadsIff(Whole(code));
      case Cut(front) => FrontReadsIff(Front(code, front));
      case NotCreated => assert s'.files == s.files && s'.routes == s.routes;
    }
  }

  lemma {:induction false} Extend(s: Site, es: seq<Event>, m: Site, e: Event)
    requires Executes(s, es, m) && Enabled(m, e)
    ensures Executes(s, es + [e], Apply(m, e))
    decreases |es|
  {
    if es == [] {
      assert es + [e] == [e];
    } else {
      Extend(Apply(s, es[0]), es[1..], m, e);
      assert (es + [e])[0] == es[0] && (es + [e])[1..] == es[1..] + [e];
    }
  }

  ghost predicate Reachable(s: Site) { exists es :: Executes(Empty(), es, s) }

  lemma ReachableNext(s: Site, e: Event)
    requires Reachable(s) && Enabled(s, e)
    ensures Reachable(Apply(s, e))
  {
    var es :| Executes(Empty(), es, s);
    Extend(Empty(), es, s, e);
  }

  /** One live path with its script, and nobody under way. */
  function OneRoute(p: string, c: string, name: string): Site {
    Site(map[p := DynamicRoute(p, name)], map[name := File(c)], map[], map[], {name}, map[p := Whole(c)], map[p := c])
  }

  lemma OneRouteIsReachable(p: string, c: string, name: string)
    ensures Reachable(OneRoute(p, c, name))
  {
    assert Executes(Empty(), [], Empty());
    ReachableNext(Empty(), PostWrite(0, p, c, name, Written));
    var s := Apply(Empty(), PostWrite(0, p, c, name, Written));
    ReachableNext(s, PostAdd(0, true));
    assert Apply(s, PostAdd(0, true)) == OneRoute(p, c, name);
  }

  /** The failing PUT: acknowledged, not written, and the path goes on to serve the old code. */
  lemma FailedPutIsAcknowledged(p: string, c: string, d: string, name: string) returns (s: Site)
    requires c != d
    ensures Reachable(s) && s.acks == map[p := d] && s.puts == map[]
    ensures GetCode(s, p) == Code(c + "\n") != Code(d + "\n")
  {
    var s0 := OneRoute(p, c, name);
    OneRouteIsReachable(p, c, name);
    ReachableNext(s0, PutLookup(0, p, d));
    var s1 := Apply(s0, PutLookup(0, p, d));
    ReachableNext(s1, PutWrite(0, NotCreated));
    s := Apply(s1, PutWrite(0, NotCreated));
    C.UnwrapWrap(C.DynHandle, c);
    assert (c + "\n")[..|c|] == c && (d + "\n")[..|d|] == d;
  }

  /** Two PUTs that have both looked the script up. */
  function TwoPuts(p: string, c: string, d: string, e: string, name: string): Site {
    OneRoute(p, c, name).(puts := map[0 := Looked(p, d, name), 1 := Looked(p, e, name)], acks := map[p := e])
  }

  lemma TwoPutsAreReachable(p: string, c: string, d: string, e: string, name: string)
    ensures Reachable(TwoPuts(p, c, d, e, name))
  {
    var s0 := OneRoute(p, c, name);
    OneRouteIsReachable(p, c, name);
    ReachableNext(s0, PutLookup(0, p, d));
    var s1 := s0.(puts := map[0 := Looked(p, d, name)], acks := map[p := d]);
    assert Apply(s0, PutLookup(0, p, d)) == s1;
    ReachableNext(s1, PutLookup(1, p, e));
    assert Apply(s1, PutLookup(1, p, e)) == TwoPuts(p, c, d, e, name);
  }

  lemma SecondIsWritten(p: string, c: string, d: string, e: string, name: string)
    ensures Reachable(OneRoute(p, e, name).(puts := map[0 := Looked(p, d, name)]))
  {
    var s := TwoPuts(p, c, d, e, name);
    TwoPutsAreReachable(p, c, d, e, name);
    ReachableNext(s, PutWrite(1, Written));
    assert s.puts - {1} == map[0 := Looked(p, d, name)] && s.files[name := File(e)] == map[name := File(e)];
    assert Apply(s, PutWrite(1, Written)) == OneRoute(p, e, name).(puts := s.puts - {1});
  }

  /** Two PUTs that overlap may be written in the other order: the path then serves the code acknowledged first. */
  lemma PutsCanSwap(p: string, c: string, d: string, e: string, name: string) returns (s: Site)
    requires d != e
    ensures Reachable(s) && s.acks == map[p := e] && s.puts == map[]
    ensures GetCode(s, p) == Code(d + "\n") != Code(e + "\n")
  {
    var s0 := OneRoute(p, e, name).(puts := map[0 := Looked(p, d, name)]);
    SecondIsWritten(p, c, d, e, name);
    ReachableNext(s0, PutWrite(0, Written));
    s := OneRoute(p, d, name).(acks := map[p := e]);
    assert s0.puts - {0} == map[] && Apply(s0, PutWrite(0, Written)) == s;
    ServesTheOther(s, p, e, d);
  }

  // ----- names that repeat -----

  /** The second path's code in the first path's file. */
  lemma ServesTheOther(s: Site, p: string, c: string, d: string)
    requires IsDynamic(s, p) && Script(s, p) in s.files && s.files[Script(s, p)] == File(d) && c != d
    ensures GetCode(s, p) == Code(d + "\n") != Code(c + "\n")
  {
    C.UnwrapWrap(C.DynHandle, d);
    assert (c + "\n")[..|c|] == c && (d + "\n")[..|d|] == d;
  }

  /** Two POSTs within one second get the same name: the first path then answers with the second path's code. */
  lemma SameSecondOverwrites(p: string, c: string, q: string, d: string, name: string) returns (s: Site)
    requires p != q && c != d
    ensures Reachable(s) && s.acks == map[p := c, q := d] && !ScriptsDistinct(s)
    ensures GetCode(s, p) == Code(d + "\n") != Code(c + "\n") && !Serves(s, p)
  {
    var s0 := OneRoute(p, c, name);
    OneRouteIsReachable(p, c, name);
    ReachableNext(s0, PostWrite(0, q, d, name, Written));
    var s1 := Apply(s0, PostWrite(0, q, d, name, Written));
    ReachableNext(s1, PostAdd(0, true));
    s := Apply(s1, PostAdd(0, true));
    ServesTheOther(s, p, c, d);
    assert IsDynamic(s, p) && IsDynamic(s, q) && Script(s, p) == Script(s, q);
  }

  /** Both write before either is added: no live route has the name at the writes, nor at the addition. */
  lemma InterleavedPostsOverwrite(p: string, c: string, q: string, d: string, name: string) returns (s: Site)
    requires c != d
    ensures Reachable(s) && s.acks == map[p := c] && ScriptsDistinct(s)
    ensures GetCode(s, p) == Code(d + "\n") != Code(c + "\n") && !Serves(s, p)
  {
    assert Executes(Empty(), [], Empty());
    ReachableNext(Empty(), PostWrite(0, p, c, name, Written));
    var s1 := Apply(Empty(), PostWrite(0, p, c, name, Written));
    ReachableNext(s1, PostWrite(1, q, d, name, Written));
    var s2 := Apply(s1, PostWrite(1, q, d, name, Written));
    ReachableNext(s2, PostAdd(0, true));
    s := Apply(s2, PostAdd(0, true));
    ServesTheOther(s, p, c, d);
  }

  /** No route, a script file, and a PUT that has looked it up. */
  function StaleLookup(p: string, c: string, d: string, name: string): Site {
    Empty().(files := map[name := File(c)], puts := map[0 := Looked(p, d, name)], used := {name})
  }

  lemma StaleLookupIsReachable(p: string, c: string, d: string, name: string)
    ensures Reachable(StaleLookup(p, c, d, name))
  {
    var s0 := OneRoute(p, c, name);
    OneRouteIsReachable(p, c, name);
    ReachableNext(s0, PutLookup(0, p, d));
    var s1 := s0.(puts := map[0 := Looked(p, d, name)], acks := map[p := d]);
    assert Apply(s0, PutLookup(0, p, d)) == s1;
    ReachableNext(s1, Delete(p));
    assert Apply(s1, Delete(p)) == StaleLookup(p, c, d, name);
  }

  /** A POST takes the name. */
  lemma NameChangesHands(p: string, c: string, q: string, d: string, e: string, name: string)
    ensures Reachable(OneRoute(q, e, name).(puts := map[0 := Looked(p, d, name)]))
  {
    var s2 := StaleLookup(p, c, d, name);
    StaleLookupIsReachable(p, c, d, name);
    ReachableNext(s2, PostWrite(1, q, e, name, Written));
    var s3 := s2.(files := map[name := File(e)], posts := map[1 := Posted(q, e, name)]);
    assert s2.files[name := File(e)] == s3.files && s2.used + {name} == s3.used;
    assert s2.posts[1 := Posted(q, e, name)] == s3.posts;
    assert Apply(s2, PostWrite(1, q, e, name, Written)) == s3;
    ReachableNext(s3, PostAdd(1, true));
    assert s3.posts - {1} == map[];
    assert Apply(s3, PostAdd(1, true)) == OneRoute(q, e, name).(puts := s2.puts);
  }

  /** The PUT then writes over the file of the POST. */
  lemma StalePutOverwrites(p: string, c: string, q: string, d: string, e: string, name: string) returns (s: Site)
    requires d != e && p != q
    ensures Reachable(s) && s.acks == map[q := e] && ScriptsDistinct(s)
    ensures GetCode(s, q) == Code(d + "\n") != Code(e + "\n") && !Serves(s, q)
  {
    var s0 := OneRoute(q, e, name).(puts := map[0 := Looked(p, d, name)]);
    NameChangesHands(p, c, q, d, e, name);
    ReachableNext(s0, PutWrite(0, Written));
    s := OneRoute(q, e, name).(files := map[name := File(d)]);
    assert s0.puts - {0} == map[] && Apply(s0, PutWrite(0, Written)) == s;
    ServesTheOther(s, q, e, d);
  }
}

/** The handlers as methods over the cached route collection and the file storage, each run without interruption. */
module DynamicRoutesObject {
  import opened Basics
  import opened FileStorage
  import opened Routes
  import opened DynamicRoutes
  import C = CodeWrappers
  import Cached = CachedCollection
  import Stored = CollectionObject

  lemma OneStep(s: Site, e: Event, s': Site)
    requires Enabled(s, e) && s' == Apply(s, e)
    ensures Executes(s, [e], s')
  {
    assert Executes(s', [], s') && [e][1..] == [];
  }

  lemma TwoSteps(s: Site, e: Event, f: Event, s': Site)
    requires Enabled(s, e) && Enabled(Apply(s, e), f) && s' == Apply(Apply(s, e), f)
    ensures Executes(s, [e, f], s')
  {
    OneStep(Apply(s, e), f, s');
    assert [e, f][1..] == [f];
  }

  lemma PostEnds(s: Site, p: Posted, ok: bool, s': Site)
    requires s.posts == map[] && s.puts == map[]
    requires s' == AddPosted(WritePosted(s, 0, p, Written), 0, ok)
    ensures Executes(s, [PostWrite(0, p.path, p.code, p.name, Written), PostAdd(0, ok)], s')
  {
    TwoSteps(s, PostWrite(0, p.path, p.code, p.name, Written), PostAdd(0, ok), s');
  }

  lemma PutEnds(s: Site, path: string, code: string, o: Outcome, s': Site)
    requires s.posts == map[] && s.puts == map[] && IsDynamic(s, path) && Possible(File(code), o)
    requires s' == s.(files := AfterWrite(s.files, Script(s, path), File(code), o), acks := s.acks[path := code],
                      writes := match o
                                case NotCreated => s.writes
                                case Cut(front) => s.writes[path := Front(code, front)]
                                case Written => s.writes[path := Whole(code)])
    ensures Executes(s, [PutLookup(0, path, code), PutWrite(0, o)], s')
  {
    assert map[0 := Looked(path, code, Script(s, path))] - {0} == map[];
    TwoSteps(s, PutLookup(0, path, code), PutWrite(0, o), s');
  }

  /** How a handler answers; a PUT has answered `Fine` before it writes. */
  datatype Status = Fine | Conflict | Missing | WrongType | Broken

  class Handlers {
    const routes: Stored.Collection<string, Route>
    const fs: FileStorage
    ghost var used: set<string>
    ghost var writes: map<string, Copy>
    ghost var acks: map<string, string>

    ghost function Value(): Site
      reads this, routes, fs
    {
      Site(routes.coll, fs.files, map[], map[], used, writes, acks)
    }

    ghost predicate Valid()
      reads this, routes
    {
      routes.merge == SetFields && routes.IsCoherent()
    }

    constructor ()
      ensures Valid() && Value() == Empty() && fresh(routes) && fresh(fs)
    {
      routes := new Stored.Collection(SetFields);
      fs := new FileStorage();
      used, writes, acks := {}, map[], map[];
    }

    /** A rejected POST leaves its script file behind. */
    method Post(path: string, code: string, stamp: string,
                created: bool, sizes: nat -> nat, fails: nat -> bool, ok: bool)
      returns (r: Status, ghost es: seq<Event>)
      requires Valid()
      modifies this, routes, fs
      ensures Valid() && Executes(old(Value()), es, Value())
      ensures |es| in {1, 2} && es[0].PostWrite? && es[1..] == if |es| == 2 then [PostAdd(0, ok)] else []
      ensures es[0] == PostWrite(0, path, code, GenUniqueFilename(stamp, "py"), es[0].o)
      ensures |es| == 2 <==> es[0].o.Written?
      ensures created && (forall i :: !fails(i)) ==> |es| == 2
      ensures r.Fine? <==> |es| == 2 && ok && path !in old(routes.coll)
      ensures r == Conflict <==> |es| == 2 && ok && path in old(routes.coll)
      ensures r.Fine? ==> acks == old(acks)[path := code]
      ensures r == Conflict ==> GenUniqueFilename(stamp, "py") in fs.files
      ensures !r.Fine? ==> routes.coll == old(routes.coll) && acks == old(acks)
    {
      ghost var s := Value();
      var name := GenUniqueFilename(stamp, "py");
      var written; ghost var o;
      written, o := fs.Write(name, C.Wrap(C.DynHandle, code), created, sizes, fails);
      used := used + {name};
      ghost var e := PostWrite(0, path, code, name, o);
      if !written {
        OneStep(s, e, Value());
        return Broken, [e];
      }
      ghost var m := Value();
      r := AddRoute(path, code, name, ok);
      es := [e, PostAdd(0, ok)];
      PostEnds(s, Posted(path, code, name), ok, Value());
    }

    /** The second half of a POST. */
    method AddRoute(path: string, code: string, name: string, ok: bool) returns (r: Status)
      requires Valid()
      modifies this, routes
      ensures Valid() && used == old(used)
      ensures r == if !ok then Broken else if path in old(routes.coll) then Conflict else Fine
      ensures Value() == AddPosted(old(Value()).(posts := map[0 := Posted(path, code, name)]), 0, ok)
    {
      var added := routes.Add(path, DynamicRoute(path, name), ok);
      r := match added case Done => Fine case Duplicate => Conflict case _ => Broken;
      if added.Done? { writes, acks := writes[path := Whole(code)], acks[path := code]; }
      assert map[0 := Posted(path, code, name)] - {0} == map[];
    }

    /**
     * The script is found through the route, the request is answered, and the script is written; the route itself is
     * not changed. `written` says how the write went, which the answer does not.
     */
    method Put(path: string, code: string, ok: bool, created: bool, sizes: nat -> nat, fails: nat -> bool)
      returns (r: Status, written: bool, ghost es: seq<Event>)
      requires Valid()
      modifies this, routes, fs
      ensures Valid() && Executes(old(Value()), es, Value())
      ensures |es| in {0, 2} && (|es| == 2 ==> es[0] == PutLookup(0, path, code) && es[1].PutWrite?)
      ensures r.Fine? <==> |es| == 2
      ensures written <==> |es| == 2 && es[1].o.Written?
      ensures ok && IsDynamic(old(Value()), path) ==> r.Fine?
      ensures r.Fine? && created && (forall i :: !fails(i)) ==> written
      ensures routes.coll == old(routes.coll)
      ensures r.Fine? ==> IsDynamic(old(Value()), path) && acks == old(acks)[path := code]
      ensures written ==> writes == old(writes)[path := Whole(code)]
      ensures ok ==> (r.Missing? <==> path !in routes.coll)
      ensures ok ==> (r.WrongType? <==> path in routes.coll && !IsDynamic(old(Value()), path))
      ensures !created ==> writes == old(writes) && fs.files == old(fs.files)
      ensures !r.Fine? ==> Value() == old(Value())
    {
      ghost var s := Value();
      var found := routes.Get(path, ok);
      written, es := false, [];
      match Typed(found, DynamicEndpoint) {
        case NoSuchPath => r := Missing;
        case BadRouteType => r := WrongType;
        case OtherError => r := Broken;
        case Value(script) =>
          r, acks := Fine, acks[path := code];
          ghost var o;
          written, o := fs.Write(script, C.Wrap(C.DynHandle, code), created, sizes, fails);
          if o.Cut? { writes := writes[path := Front(code, o.front)]; }
          if written { writes := writes[path := Whole(code)]; }
          es := [PutLookup(0, path, code), PutWrite(0, o)];
          PutEnds(s, path, code, o, Value());
      }
    }

    /** The route goes, whatever its type, and the script file stays. */
    method Delete(path: string, ok: bool) returns (r: Status)
      requires Valid()
      modifies this, routes
      ensures Valid() && r == if ok then Fine else Broken
      ensures ok ==> Enabled(old(Value()), DynamicRoutes.Delete(path))
                     && Value() == Apply(old(Value()), DynamicRoutes.Delete(path))
      ensures !ok ==> Value() == old(Value())
    {
      var removed := routes.Remove(path, ok);
      if ok { writes, acks := writes - {path}, acks - {path}; }
      r := if ok then Fine else Broken;
    }

    /** `GET .../code`. */
    method ReadCode(path: string, ok: bool, readable: bool) returns (r: Reply)
      requires Valid()
      modifies routes
      ensures Valid() && Value() == old(Value())
      ensures r == GetCode(Value(), path) || (r == Unreadable && (!ok || !readable))
    {
      var found := routes.Get(path, ok);
      match Typed(found, DynamicEndpoint) {
        case OtherError => return Unreadable;
        case NoSuchPath => return NotFound;
        case BadRouteType => return NotFound;
        case Value(script) =>
          var there, text := fs.Read(script, readable);
          if !there { return Unreadable; }
          var code := C.Unwrap(text);
          return if code.Some? then Code(code.value) else Panic;
      }
    }
  }
}
