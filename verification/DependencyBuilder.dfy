/** core/dependencies-builder/src/index.ts: a depth-first walk over a possibly cyclic module graph,
    and the dictionary that it yields.

    Parsing, module resolution and reading are parameters of the World; None is a thrown error. Tree
    nodes are named by their paths, since the cache holds one node for each path. */
module Dependencies {
  import opened Common

  type Path = string
  type Request = string
  type Content = string

  datatype World = World(
    files: map<Path, Content>,
    parse: Content -> Option<seq<Request>>,
    resolve: (Request, Path) -> Option<Path>,
    builtin: Path -> bool,
    bundled: Path -> bool)

  datatype File = File(path: Path, content: Content)

  /** The links of a module, or None when it has no requests at all. */
  datatype Node = Node(content: Content, nodes: Option<map<Request, Path>>)

  type Dictionary = map<Path, map<Request, File>>

  // ---- The module graph ----

  /** The entry's content is given; every other module is read. */
  predicate Known(w: World, root: File, p: Path) {
    p == root.path || p in w.files
  }

  function ContentOf(w: World, root: File, p: Path): Content
    requires Known(w, root, p)
  {
    if p == root.path then root.content else w.files[p]
  }

  function RequestsOf(w: World, root: File, p: Path): Option<seq<Request>> {
    if Known(w, root, p) then w.parse(ContentOf(w, root, p)) else None
  }

  /** The user module that a request of p names: not an empty request, not a built-in module, and
      not a bundled one, unless it is the entry. */
  function LinkTo(w: World, root: File, p: Path, request: Request): Option<Path> {
    if request == "" then None
    else match w.resolve(request, p)
      case None => None
      case Some(t) => if w.builtin(t) || (w.bundled(t) && t != root.path) then None else Some(t)
  }

  function Links(w: World, root: File, p: Path, requests: seq<Request>): map<Request, Path> {
    map d | d in requests && LinkTo(w, root, p, d).Some? :: LinkTo(w, root, p, d).value
  }

  predicate Edge(w: World, root: File, p: Path, q: Path) {
    RequestsOf(w, root, p).Some? && q in Links(w, root, p, RequestsOf(w, root, p).value).Values
  }

  /** A module that can be read and parsed and all of whose requests resolve. */
  predicate Loadable(w: World, root: File, p: Path) {
    && RequestsOf(w, root, p).Some?
    && forall d :: d in RequestsOf(w, root, p).value && d != "" ==> w.resolve(d, p).Some?
  }

  /** The text of a module: the entry's own, or what is read. */
  function SourceOf(w: World, root: File, p: Path): Option<Content> {
    if p == root.path then Some(root.content) else if p in w.files then Some(w.files[p]) else None
  }

  /** The module can be read and parsed, and this is one of its requests. */
  predicate Asks(w: World, root: File, p: Path, request: Request) {
    var source := SourceOf(w, root, p);
    source.Some? && w.parse(source.value).Some? && request in w.parse(source.value).value
  }

  /** The request names a user module: it is not empty and resolves to a module that is neither built in
      nor, unless it is the entry, bundled. */
  predicate Names(w: World, root: File, p: Path, request: Request, t: Path) {
    && request != "" && w.resolve(request, p) == Some(t) && !w.builtin(t)
    && (t == root.path || !w.bundled(t))
  }

  lemma EdgeIff(w: World, root: File, p: Path, q: Path)
    ensures Edge(w, root, p, q) <==> exists request :: Asks(w, root, p, request) && Names(w, root, p, request, q)
  {
    if Edge(w, root, p, q) {
      var requests := RequestsOf(w, root, p).value;
      var d :| d in Links(w, root, p, requests) && Links(w, root, p, requests)[d] == q;
      assert Asks(w, root, p, d) && Names(w, root, p, d, q);
    }
    if request :| Asks(w, root, p, request) && Names(w, root, p, request, q) {
      var requests := RequestsOf(w, root, p).value;
      assert request in Links(w, root, p, requests) && Links(w, root, p, requests)[request] == q;
    }
  }

  /** A module cannot be loaded exactly when it cannot be read or parsed, or has a request, other than
      the empty one, that does not resolve. */
  lemma UnloadableIff(w: World, root: File, p: Path)
    ensures !Loadable(w, root, p) <==>
            || SourceOf(w, root, p).None? || w.parse(SourceOf(w, root, p).value).None?
            || exists request :: Asks(w, root, p, request) && request != "" && w.resolve(request, p).None?
  {
    if request :| Asks(w, root, p, request) && request != "" && w.resolve(request, p).None? {
      assert request in RequestsOf(w, root, p).value;
    }
    if !Loadable(w, root, p) && RequestsOf(w, root, p).Some? {
      var d :| d in RequestsOf(w, root, p).value && d != "" && w.resolve(d, p).None?;
      assert Asks(w, root, p, d);
    }
  }

  ghost predicate IsPath(w: World, root: File, ps: seq<Path>) {
    && ps != [] && ps[0] == root.path
    && forall i :: 0 <= i < |ps| - 1 ==> Edge(w, root, ps[i], ps[i + 1])
  }

  ghost predicate Reachable(w: World, root: File, p: Path) {
    exists ps :: IsPath(w, root, ps) && ps[|ps| - 1] == p
  }

  lemma RootReachable(w: World, root: File)
    ensures Reachable(w, root, root.path)
  {
    assert IsPath(w, root, [root.path]);
  }

  lemma EdgeReachable(w: World, root: File, p: Path, q: Path)
    requires Reachable(w, root, p) && Edge(w, root, p, q)
    ensures Reachable(w, root, q)
  {
    var ps :| IsPath(w, root, ps) && ps[|ps| - 1] == p;
    assert IsPath(w, root, ps + [q]);
  }

  /** A set that holds the entry and is closed under edges holds everything reachable. */
  lemma {:induction false} ClosedHoldsPath(w: World, root: File, s: set<Path>, ps: seq<Path>)
    requires root.path in s && (forall p, q :: p in s && Edge(w, root, p, q) ==> q in s)
    requires IsPath(w, root, ps)
    ensures ps[|ps| - 1] in s
  {
    if |ps| > 1 {
      ClosedHoldsPath(w, root, s, ps[..|ps| - 1]);
      assert Edge(w, root, ps[|ps| - 2], ps[|ps| - 1]);
    }
  }

  // ---- The walk ----

  /** What a finished node holds. */
  function NodesOf(w: World, root: File, p: Path, requests: seq<Request>): Option<map<Request, Path>> {
    if requests == [] then None else Some(Links(w, root, p, requests))
  }

  /** The node of p is finished: everything it links to has been cached. */
  ghost predicate Finished(w: World, root: File, cache: map<Path, Node>, p: Path) {
    && p in cache && Loadable(w, root, p)
    && cache[p].nodes == NodesOf(w, root, p, RequestsOf(w, root, p).value)
    && (forall q :: Edge(w, root, p, q) ==> q in cache)
  }

  ghost predicate CacheOk(w: World, root: File, cache: map<Path, Node>) {
    && root.path in cache
    && forall p :: p in cache ==>
         && Reachable(w, root, p) && Known(w, root, p)
         && cache[p].content == ContentOf(w, root, p)
         && (p == root.path || !w.bundled(p))
  }

  ghost predicate SomeUnloadable(w: World, root: File) {
    exists p :: Reachable(w, root, p) && !Loadable(w, root, p)
  }

  /** The cache grew: old nodes are untouched and new ones are finished. */
  ghost predicate Grown(w: World, root: File, before: map<Path, Node>, after: map<Path, Node>) {
    && (forall p :: p in before ==> p in after && after[p] == before[p])
    && (forall p :: p in after && p !in before ==> Finished(w, root, after, p))
  }

  lemma GrownTransitive(w: World, root: File, a: map<Path, Node>, b: map<Path, Node>, c: map<Path, Node>)
    requires Grown(w, root, a, b) && Grown(w, root, b, c)
    ensures Grown(w, root, a, c)
  {
  }

  class DependencyBuilder {
    const w: World
    const root: File
    var nodesCache: map<Path, Node>

    constructor (w: World, root: File)
      ensures this.w == w && this.root == root
      ensures nodesCache == map[root.path := Node(root.content, None)]
    {
      this.w, this.root := w, root;
      nodesCache := map[root.path := Node(root.content, None)];
    }

    /** Caches everything reachable from the parent that is not cached yet. It terminates on cycles
        because every call caches a file that was not in the cache. */
    method BuildNodes(parentPath: Path, parentContent: Content) returns (r: Result<Option<map<Request, Path>>, string>)
      requires CacheOk(w, root, nodesCache) && parentPath in nodesCache
      requires parentContent == nodesCache[parentPath].content
      modifies this
      ensures CacheOk(w, root, nodesCache)
      ensures r.Ok? ==>
        && Grown(w, root, old(nodesCache), nodesCache)
        && Loadable(w, root, parentPath)
        && r.value == NodesOf(w, root, parentPath, RequestsOf(w, root, parentPath).value)
        && (forall q :: Edge(w, root, parentPath, q) ==> q in nodesCache)
      ensures r.Err? ==> SomeUnloadable(w, root)
      decreases w.files.Keys - nodesCache.Keys, 1
    {
      var parsed := w.parse(parentContent);
      if parsed.None? {
        return Err("parse error");
      }
      var dependencies := parsed.value;
      if |dependencies| == 0 {
        return Ok(None);
      }
      var resultNodes: map<Request, Path> := map[];
      for index := 0 to |dependencies|
        invariant CacheOk(w, root, nodesCache) && Grown(w, root, old(nodesCache), nodesCache)
        invariant resultNodes == Links(w, root, parentPath, dependencies[..index])
        invariant resultNodes.Values <= nodesCache.Keys
        invariant forall d :: d in dependencies[..index] && d != "" ==> w.resolve(d, parentPath).Some?
      {
        var dependency := dependencies[index];
        ghost var before := nodesCache;
        var link := Follow(parentPath, dependency);
        if link.Err? {
          return Err(link.error);
        }
        GrownTransitive(w, root, old(nodesCache), before, nodesCache);
        LinksSnoc(w, root, parentPath, dependencies, index);
        if link.value.Some? {
          resultNodes := resultNodes[dependency := link.value.value];
        }
      }
      assert dependencies[..|dependencies|] == dependencies;
      r := Ok(Some(resultNodes));
    }

    /** One turn of the loop in `buildNodes`: link to the cached node of a dependency, or skip it, or
        read it, cache it and build its own nodes. */
    method Follow(parentPath: Path, dependency: Request) returns (r: Result<Option<Path>, string>)
      requires CacheOk(w, root, nodesCache) && parentPath in nodesCache
      requires RequestsOf(w, root, parentPath).Some? && dependency in RequestsOf(w, root, parentPath).value
      modifies this
      ensures CacheOk(w, root, nodesCache)
      ensures r.Ok? ==>
        && Grown(w, root, old(nodesCache), nodesCache)
        && r.value == LinkTo(w, root, parentPath, dependency)
        && (r.value.Some? ==> r.value.value in nodesCache)
        && (dependency != "" ==> w.resolve(dependency, parentPath).Some?)
      ensures r.Err? ==> SomeUnloadable(w, root)
      decreases w.files.Keys - nodesCache.Keys, 0
    {
      if dependency == "" {
        return Ok(None);
      }
      var resolved := w.resolve(dependency, parentPath);
      if resolved.None? {
        assert !Loadable(w, root, parentPath);
        return Err("cannot resolve");
      }
      var target := resolved.value;
      if w.builtin(target) {
        return Ok(None);
      }
      if target in nodesCache {
        return Ok(Some(target));
      }
      if w.bundled(target) {
        return Ok(None);
      }
      LinkReachable(w, root, parentPath, dependency, target);
      if target !in w.files {
        assert !Loadable(w, root, target);
        return Err("cannot read");
      }
      ghost var before := nodesCache;
      var content := w.files[target];
      nodesCache := nodesCache[target := Node(content, None)];
      ghost var cached := nodesCache;
      FewerFiles(w.files.Keys, before, cached, target);
      var nodes := BuildNodes(target, content);
      if nodes.Err? {
        return Err(nodes.error);
      }
      ghost var built := nodesCache;
      nodesCache := nodesCache[target := Node(content, nodes.value)];
      NodeFinished(w, root, before, cached, built, nodesCache, target);
      r := Ok(Some(target));
    }

    /** `buildDependencyDictionary`: succeeds exactly when everything reachable can be loaded, and
        then maps exactly the reachable modules to exactly their links. */
    method BuildDependencyDictionary() returns (r: Result<Dictionary, string>)
      requires nodesCache == map[root.path := Node(root.content, None)]
      modifies this
      ensures r.Ok? <==> !SomeUnloadable(w, root)
      ensures r.Ok? ==> IsDictionary(w, root, r.value)
    {
      RootReachable(w, root);
      ghost var start := nodesCache;
      var nodes := BuildNodes(root.path, root.content);
      if nodes.Err? {
        return Err(nodes.error);
      }
      ghost var built := nodesCache;
      nodesCache := nodesCache[root.path := Node(root.content, nodes.value)];
      NodeFinished(w, root, map[], start, built, nodesCache, root.path);
      DictionaryOfFinished(w, root, nodesCache);
      r := Ok(DictionaryOf(nodesCache));
    }
  }

  /** `getNodeDependencies`: an unlinked node has no entries. */
  function GetNodeDependencies(cache: map<Path, Node>, node: Node): map<Request, File> {
    if node.nodes.None? then map[]
    else map d | d in node.nodes.value && node.nodes.value[d] in cache ::
           File(node.nodes.value[d], cache[node.nodes.value[d]].content)
  }

  function DictionaryOf(cache: map<Path, Node>): Dictionary {
    map p | p in cache :: GetNodeDependencies(cache, cache[p])
  }

  // ---- Lemmas of the walk ----

  lemma LinkReachable(w: World, root: File, p: Path, d: Request, t: Path)
    requires Reachable(w, root, p) && RequestsOf(w, root, p).Some? && d in RequestsOf(w, root, p).value
    requires LinkTo(w, root, p, d) == Some(t)
    ensures Edge(w, root, p, t) && Reachable(w, root, t)
  {
    assert Links(w, root, p, RequestsOf(w, root, p).value)[d] == t;
    EdgeReachable(w, root, p, t);
  }

  lemma LinksSnoc(w: World, root: File, p: Path, ds: seq<Request>, i: nat)
    requires i < |ds|
    ensures Links(w, root, p, ds[..i + 1]) ==
            match LinkTo(w, root, p, ds[i])
            case None => Links(w, root, p, ds[..i])
            case Some(t) => Links(w, root, p, ds[..i])[ds[i] := t]
  {
  }

  /** Storing the links that a finished walk returned finishes the node itself. */
  lemma NodeFinished(w: World, root: File, before: map<Path, Node>, cached: map<Path, Node>,
                     built: map<Path, Node>, after: map<Path, Node>, t: Path)
    requires t in cached && cached.Keys == before.Keys + {t} && t !in before
    requires forall p :: p in before ==> cached[p] == before[p]
    requires Grown(w, root, cached, built) && Loadable(w, root, t)
    requires forall q :: Edge(w, root, t, q) ==> q in built
    requires t in after && after == built[t := after[t]]
    requires after[t].nodes == NodesOf(w, root, t, RequestsOf(w, root, t).value)
    ensures Grown(w, root, before, after)
  {
  }

  lemma AllFinished(w: World, root: File, cache: map<Path, Node>)
    requires CacheOk(w, root, cache) && Grown(w, root, map[], cache)
    ensures forall p :: p in cache <==> Reachable(w, root, p)
    ensures !SomeUnloadable(w, root)
  {
    forall p | Reachable(w, root, p) ensures p in cache {
      var ps :| IsPath(w, root, ps) && ps[|ps| - 1] == p;
      forall a, b | a in cache.Keys && Edge(w, root, a, b) ensures b in cache.Keys {
        assert Finished(w, root, cache, a);
      }
      ClosedHoldsPath(w, root, cache.Keys, ps);
    }
    forall p | Reachable(w, root, p) ensures Loadable(w, root, p) {
      assert Finished(w, root, cache, p);
    }
  }

  lemma FewerFiles(files: set<Path>, before: map<Path, Node>, after: map<Path, Node>, t: Path)
    requires t in files && t !in before && after.Keys == before.Keys + {t}
    ensures files - after.Keys < files - before.Keys
  {
  }

  // ---- The dictionary ----

  /** The keys are exactly the reachable modules, and each is mapped to exactly its links. */
  ghost predicate IsDictionary(w: World, root: File, d: Dictionary) {
    && (forall p :: p in d <==> Reachable(w, root, p))
    && (forall p :: p in d ==> Loadable(w, root, p) && Describes(w, root, p, d[p]))
  }

  ghost predicate Describes(w: World, root: File, p: Path, links: map<Request, File>)
    requires Loadable(w, root, p)
  {
    var requests := RequestsOf(w, root, p).value;
    && links.Keys == Links(w, root, p, requests).Keys
    && forall d :: d in links ==>
         var t := Links(w, root, p, requests)[d];
         Known(w, root, t) && links[d] == File(t, ContentOf(w, root, t))
  }

  lemma FinishedDescribes(w: World, root: File, cache: map<Path, Node>, p: Path)
    requires CacheOk(w, root, cache) && Finished(w, root, cache, p)
    ensures Describes(w, root, p, GetNodeDependencies(cache, cache[p]))
  {
  }

  lemma DictionaryOfFinished(w: World, root: File, cache: map<Path, Node>)
    requires CacheOk(w, root, cache) && Grown(w, root, map[], cache)
    ensures IsDictionary(w, root, DictionaryOf(cache)) && !SomeUnloadable(w, root)
  {
    AllFinished(w, root, cache);
    forall p | p in cache ensures Describes(w, root, p, DictionaryOf(cache)[p]) {
      FinishedDescribes(w, root, cache, p);
    }
  }

  /** Every module that an entry names is itself a key. */
  ghost predicate Closed(d: Dictionary) {
    forall p, request :: p in d && request in d[p] ==> d[p][request].path in d
  }

  lemma DictionaryClosed(w: World, root: File, d: Dictionary)
    requires IsDictionary(w, root, d)
    ensures Closed(d) && root.path in d
  {
    RootReachable(w, root);
    forall p, request | p in d && request in d[p] ensures d[p][request].path in d {
      var requests := RequestsOf(w, root, p).value;
      assert Describes(w, root, p, d[p]);
      LinkReachable(w, root, p, request, Links(w, root, p, requests)[request]);
    }
  }

  /** An entry of a dictionary is a request of its module that names a user module, and it holds that
      module's path and text. */
  lemma EntryIff(w: World, root: File, d: Dictionary, p: Path, request: Request, t: Path)
    requires IsDictionary(w, root, d) && p in d
    ensures request in d[p] && d[p][request].path == t
            <==> Asks(w, root, p, request) && Names(w, root, p, request, t)
    ensures request in d[p] ==> SourceOf(w, root, d[p][request].path) == Some(d[p][request].content)
  {
    assert Describes(w, root, p, d[p]);
    var requests := RequestsOf(w, root, p).value;
    assert request in d[p] <==> request in Links(w, root, p, requests);
  }

  /** `mergeDependencyDictionaries`: the second dictionary wins. */
  function Merge(d1: Dictionary, d2: Dictionary): Dictionary {
    d1 + d2
  }

  lemma MergeClosed(d1: Dictionary, d2: Dictionary)
    requires Closed(d1) && Closed(d2)
    ensures Closed(Merge(d1, d2))
    ensures forall p :: p in Merge(d1, d2) <==> p in d1 || p in d2
    ensures forall p :: p in d2 ==> Merge(d1, d2)[p] == d2[p]
    ensures forall p :: p in d1 && p !in d2 ==> Merge(d1, d2)[p] == d1[p]
  {
  }
}
