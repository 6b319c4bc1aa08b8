/** core/sandbox/src/sandbox.ts: loading modules that require each other, possibly in cycles.

    What a source compiles to is a parameter: nothing, when it cannot be compiled, or a body, a finite
    tree of requires whose branches may depend on whether a require threw, ending normally or in a
    throw. `executed` is the history of body runs. */
module Sandboxes {
  import opened Common
  import D = Dependencies

  datatype Script = Done | Throw | Require(request: D.Request, onReturn: Script, onThrow: Script)

  datatype Sandbox = Sandbox(source: D.Content, isCompiling: bool, isCompiled: bool) {
    predicate Started() { isCompiling || isCompiled }
  }

  /** The dictionary, what sources compile to, and whether a package outside it can be required. */
  datatype Env = Env(
    dictionary: D.Dictionary,
    compile: D.Content -> Option<Script>,
    external: (D.Request, D.Path) -> bool)

  datatype State = State(cache: map<D.Path, Sandbox>, executed: seq<D.Path>)

  /** The modules that may still have to be compiled. */
  function Pending(env: Env, cache: map<D.Path, Sandbox>): set<D.Path> {
    set p | p in Paths(env.dictionary) + cache.Keys && !(p in cache && cache[p].Started())
  }

  function Paths(d: D.Dictionary): set<D.Path> {
    set p, r | p in d && r in d[p] :: d[p][r].path
  }

  function Mark(s: State, p: D.Path, compiling: bool, compiled: bool): State
    requires p in s.cache
  {
    s.(cache := s.cache[p := Sandbox(s.cache[p].source, compiling, compiled)])
  }

  function Recorded(s: State, p: D.Path): State {
    s.(executed := s.executed + [p])
  }

  /** Only additions to the cache and to the history, and no new work. */
  ghost predicate Extends(env: Env, s: State, t: State) {
    && Pending(env, t.cache) <= Pending(env, s.cache)
    && s.cache.Keys <= t.cache.Keys
    && (forall p :: p in s.cache && s.cache[p].Started() ==> t.cache[p].Started())
  }

  /** `execute`: compile once; a module that is being compiled is not entered again. A source that
      cannot be compiled throws before the `try`, so its module stays compiling. */
  function Execute(env: Env, s: State, p: D.Path): (r: (State, bool))
    requires p in s.cache
    ensures Extends(env, s, r.0)
    ensures r.0.cache[p].Started()
    decreases Pending(env, s.cache), 0
  {
    if s.cache[p].Started() then (s, true)
    else
      var begun := Mark(s, p, true, false);
      assert p in Pending(env, s.cache) && p !in Pending(env, begun.cache);
      match env.compile(s.cache[p].source)
      case None => (begun, false)
      case Some(script) =>
        var (t, ok) := RunScript(env, Recorded(begun, p), p, script);
        (Mark(t, p, false, true), ok)
  }

  function RunScript(env: Env, s: State, p: D.Path, script: Script): (r: (State, bool))
    ensures Extends(env, s, r.0)
    decreases Pending(env, s.cache), 2, script
  {
    match script
    case Done => (s, true)
    case Throw => (s, false)
    case Require(request, onReturn, onThrow) =>
      var (t, ok) := RequireModule(env, s, p, request);
      RunScript(env, t, p, if ok then onReturn else onThrow)
  }

  /** `require`: a collected dependency is executed from the cache; anything else is a package. */
  function RequireModule(env: Env, s: State, p: D.Path, request: D.Request): (r: (State, bool))
    ensures Extends(env, s, r.0)
    decreases Pending(env, s.cache), 1
  {
    if p in env.dictionary && request in env.dictionary[p] then
      var file := env.dictionary[p][request];
      var t := Cached(s, file);
      assert file.path in Paths(env.dictionary);
      assert Pending(env, t.cache) == Pending(env, s.cache);
      Execute(env, t, file.path)
    else (s, env.external(request, p))
  }

  function Cached(s: State, file: D.File): State {
    if file.path in s.cache then s else s.(cache := s.cache[file.path := Sandbox(file.content, false, false)])
  }

  predicate Compiles(env: Env, source: D.Content) {
    env.compile(source).Some?
  }

  // ---- When an execution throws ----

  /** The requires of the script, answered in this way, lead to this leaf of the tree. */
  predicate Leads(script: Script, answers: seq<bool>, leaf: Script) {
    if answers == [] then script == leaf && !leaf.Require?
    else script.Require? && Leads(if answers[0] then script.onReturn else script.onThrow, answers[1..], leaf)
  }

  /** From s to t the requires of the script, made by p one after the other, give these answers. */
  ghost predicate Answered(env: Env, s: State, p: D.Path, script: Script, answers: seq<bool>, t: State)
    decreases |answers|
  {
    if answers == [] then s == t
    else
      && script.Require?
      && RequireModule(env, s, p, script.request).1 == answers[0]
      && Answered(env, RequireModule(env, s, p, script.request).0, p,
                  if answers[0] then script.onReturn else script.onThrow, answers[1..], t)
  }

  /** The script ends in t, normally or by a throw. */
  ghost predicate Ends(env: Env, s: State, p: D.Path, script: Script, t: State, normally: bool) {
    exists answers ::
      Answered(env, s, p, script, answers, t) && Leads(script, answers, if normally then Done else Throw)
  }

  lemma {:induction false} ScriptEnds(env: Env, s: State, p: D.Path, script: Script)
    ensures Ends(env, s, p, script, RunScript(env, s, p, script).0, RunScript(env, s, p, script).1)
    decreases script
  {
    var (t, ok) := RunScript(env, s, p, script);
    match script
    case Done => assert Answered(env, s, p, script, [], t) && Leads(script, [], Done);
    case Throw => assert Answered(env, s, p, script, [], t) && Leads(script, [], Throw);
    case Require(request, onReturn, onThrow) =>
      var (u, returned) := RequireModule(env, s, p, request);
      var next := if returned then onReturn else onThrow;
      ScriptEnds(env, u, p, next);
      var leaf := if ok then Done else Throw;
      var rest :| Answered(env, u, p, next, rest, t) && Leads(next, rest, leaf);
      assert ([returned] + rest)[1..] == rest;
      assert Answered(env, s, p, script, [returned] + rest, t) && Leads(script, [returned] + rest, leaf);
  }

  lemma {:induction false} EndsOnce(env: Env, s: State, p: D.Path, script: Script, answers: seq<bool>, t: State,
                                    leaf: Script)
    requires Answered(env, s, p, script, answers, t) && Leads(script, answers, leaf)
    ensures RunScript(env, s, p, script) == (t, leaf == Done)
    decreases |answers|
  {
    if answers == [] {
    } else {
      var u := RequireModule(env, s, p, script.request).0;
      EndsOnce(env, u, p, if answers[0] then script.onReturn else script.onThrow, answers[1..], t, leaf);
    }
  }

  /** A body ends in exactly the leaf to which the answers of its requires lead. */
  lemma ScriptEndsIff(env: Env, s: State, p: D.Path, script: Script, t: State, normally: bool)
    ensures RunScript(env, s, p, script) == (t, normally) <==> Ends(env, s, p, script, t, normally)
  {
    ScriptEnds(env, s, p, script);
    if Ends(env, s, p, script, t, normally) {
      var leaf := if normally then Done else Throw;
      var answers :| Answered(env, s, p, script, answers, t) && Leads(script, answers, leaf);
      EndsOnce(env, s, p, script, answers, t, leaf);
    }
  }

  /** The state in which the body of p begins to run. */
  function Begun(s: State, p: D.Path): State
    requires p in s.cache
  {
    State(s.cache[p := Sandbox(s.cache[p].source, true, false)], s.executed + [p])
  }

  /** The body of p ends, normally or by a throw. */
  ghost predicate BodyEnds(env: Env, s: State, p: D.Path, normally: bool) {
    && p in s.cache && Compiles(env, s.cache[p].source)
    && (exists t :: Ends(env, Begun(s, p), p, env.compile(s.cache[p].source).value, t, normally))
  }

  /** An execution returns exactly when the module was started before, or its source compiles and its
      body ends normally. */
  lemma ExecuteReturnsIff(env: Env, s: State, p: D.Path)
    requires p in s.cache
    ensures Execute(env, s, p).1 <==> s.cache[p].Started() || BodyEnds(env, s, p, true)
    ensures !Execute(env, s, p).1 <==>
            !s.cache[p].Started() && (!Compiles(env, s.cache[p].source) || BodyEnds(env, s, p, false))
  {
    if !s.cache[p].Started() && Compiles(env, s.cache[p].source) {
      var script := env.compile(s.cache[p].source).value;
      assert Recorded(Mark(s, p, true, false), p) == Begun(s, p);
      var (t, ok) := RunScript(env, Begun(s, p), p, script);
      ScriptEnds(env, Begun(s, p), p, script);
      forall u, normally | Ends(env, Begun(s, p), p, script, u, normally)
        ensures normally == ok
      {
        ScriptEndsIff(env, Begun(s, p), p, script, u, normally);
      }
    }
  }

  /** A module whose body ends in a throw throws at its first execution and is compiled afterwards, and
      every later execution returns and changes nothing. */
  lemma ThrowingThrowsOnce(env: Env, s: State, p: D.Path)
    requires p in s.cache && !s.cache[p].Started() && BodyEnds(env, s, p, false)
    ensures !Execute(env, s, p).1
    ensures Execute(env, s, p).0.cache[p].isCompiled && !Execute(env, s, p).0.cache[p].isCompiling
    ensures Execute(env, Execute(env, s, p).0, p) == (Execute(env, s, p).0, true)
  {
    ExecuteReturnsIff(env, s, p);
  }

  /** The sandbox that answers to a path: the cached one, or a new one for the file. */
  function Answering(s: State, file: D.File): State {
    State(map[file.path := Sandbox(file.content, false, false)] + s.cache, s.executed)
  }

  /** A collected dependency is answered by its execution, the file's own source being used only if
      its path is not cached; anything else is answered by the package, which changes nothing here. */
  lemma RequireAnswers(env: Env, s: State, p: D.Path, request: D.Request)
    ensures p in env.dictionary && request in env.dictionary[p] ==>
              var file := env.dictionary[p][request];
              RequireModule(env, s, p, request) == Execute(env, Answering(s, file), file.path)
    ensures !(p in env.dictionary && request in env.dictionary[p]) ==>
              RequireModule(env, s, p, request) == (s, env.external(request, p))
  {
    if p in env.dictionary && request in env.dictionary[p] {
      var file := env.dictionary[p][request];
      assert Answering(s, file).cache == Cached(s, file).cache;
    }
  }

  // ---- Every module body runs at most once ----

  /** The bodies run so far are exactly those of the started modules whose sources compile, each once. */
  ghost predicate RunOnce(env: Env, s: State) {
    && Distinct(s.executed)
    && (forall p :: p in s.executed <==> p in s.cache && s.cache[p].Started() && Compiles(env, s.cache[p].source))
    && (forall p :: p in s.cache && s.cache[p].isCompiled ==>
          !s.cache[p].isCompiling && Compiles(env, s.cache[p].source))
  }

  /** The body of p is running. */
  predicate Running(env: Env, s: State, p: D.Path) {
    p in s.cache && s.cache[p].isCompiling && Compiles(env, s.cache[p].source)
  }

  predicate Waiting(s: State, p: D.Path) {
    p in s.cache && !s.cache[p].Started()
  }

  /** Exactly the bodies that were running before are running after, and no module was cached without
      being started. */
  ghost predicate Settles(env: Env, s: State, t: State) {
    && s.executed <= t.executed
    && (forall p :: Running(env, t, p) <==> Running(env, s, p))
    && (forall p :: Waiting(t, p) ==> Waiting(s, p))
  }

  lemma {:induction false} ExecuteOnce(env: Env, s: State, p: D.Path)
    requires p in s.cache && RunOnce(env, s)
    ensures RunOnce(env, Execute(env, s, p).0) && Settles(env, s, Execute(env, s, p).0)
    decreases Pending(env, s.cache), 0
  {
    if !s.cache[p].Started() {
      var begun := Mark(s, p, true, false);
      assert p in Pending(env, s.cache) && p !in Pending(env, begun.cache);
      if Compiles(env, s.cache[p].source) {
        var script := env.compile(s.cache[p].source).value;
        ScriptOnce(env, Recorded(begun, p), p, script);
        assert Running(env, Recorded(begun, p), p);
        var t := RunScript(env, Recorded(begun, p), p, script).0;
        MarkDone(env, s, t, p);
      }
    }
  }

  /** A body that ends: its module was running in t and is not any more. */
  lemma MarkDone(env: Env, s: State, t: State, p: D.Path)
    requires p in s.cache && !s.cache[p].Started() && Running(env, t, p) && RunOnce(env, t)
    requires Settles(env, Recorded(Mark(s, p, true, false), p), t)
    ensures RunOnce(env, Mark(t, p, false, true)) && Settles(env, s, Mark(t, p, false, true))
  {
    var begun := Recorded(Mark(s, p, true, false), p);
    forall q ensures Running(env, Mark(t, p, false, true), q) <==> Running(env, s, q) {
      assert q != p ==> (Running(env, t, q) <==> Running(env, begun, q));
    }
    forall q | Waiting(Mark(t, p, false, true), q) ensures Waiting(s, q) {
      assert q != p && Waiting(t, q) && Waiting(begun, q);
    }
  }

  lemma {:induction false} ScriptOnce(env: Env, s: State, p: D.Path, script: Script)
    requires RunOnce(env, s)
    ensures RunOnce(env, RunScript(env, s, p, script).0) && Settles(env, s, RunScript(env, s, p, script).0)
    decreases Pending(env, s.cache), 2, script
  {
    match script
    case Done =>
    case Throw =>
    case Require(request, onReturn, onThrow) =>
      RequireOnce(env, s, p, request);
      var (t, ok) := RequireModule(env, s, p, request);
      ScriptOnce(env, t, p, if ok then onReturn else onThrow);
  }

  lemma {:induction false} RequireOnce(env: Env, s: State, p: D.Path, request: D.Request)
    requires RunOnce(env, s)
    ensures RunOnce(env, RequireModule(env, s, p, request).0) && Settles(env, s, RequireModule(env, s, p, request).0)
    decreases Pending(env, s.cache), 1
  {
    if p in env.dictionary && request in env.dictionary[p] {
      var file := env.dictionary[p][request];
      var t := Cached(s, file);
      assert file.path in Paths(env.dictionary);
      assert Pending(env, t.cache) == Pending(env, s.cache);
      CachedOnce(env, s, file);
      ExecuteOnce(env, t, file.path);
    }
  }

  lemma CachedOnce(env: Env, s: State, file: D.File)
    requires RunOnce(env, s)
    ensures RunOnce(env, Cached(s, file)) && Cached(s, file).executed == s.executed
    ensures forall p :: Running(env, Cached(s, file), p) <==> Running(env, s, p)
    ensures forall p :: Waiting(Cached(s, file), p) ==> Waiting(s, p) || p == file.path
  {
  }

  // ---- Loading what the dependency builder collected ----

  /** Every cached sandbox holds an expected source under an expected path. */
  ghost predicate Collected(expected: (D.Path, D.Content) -> bool, s: State) {
    forall p :: p in s.cache ==> expected(p, s.cache[p].source)
  }

  /** Every dictionary entry is expected. */
  ghost predicate Supplies(expected: (D.Path, D.Content) -> bool, d: D.Dictionary) {
    forall p, r :: p in d && r in d[p] ==> expected(d[p][r].path, d[p][r].content)
  }

  lemma {:induction false} ExecuteCollects(expected: (D.Path, D.Content) -> bool, env: Env, s: State, p: D.Path)
    requires Supplies(expected, env.dictionary) && Collected(expected, s) && p in s.cache
    ensures Collected(expected, Execute(env, s, p).0)
    decreases Pending(env, s.cache), 0
  {
    if !s.cache[p].Started() {
      var begun := Mark(s, p, true, false);
      assert p in Pending(env, s.cache) && p !in Pending(env, begun.cache);
      if Compiles(env, s.cache[p].source) {
        ScriptCollects(expected, env, Recorded(begun, p), p, env.compile(s.cache[p].source).value);
      }
    }
  }

  lemma {:induction false} ScriptCollects(expected: (D.Path, D.Content) -> bool, env: Env, s: State, p: D.Path,
                                          script: Script)
    requires Supplies(expected, env.dictionary) && Collected(expected, s)
    ensures Collected(expected, RunScript(env, s, p, script).0)
    decreases Pending(env, s.cache), 2, script
  {
    match script
    case Done =>
    case Throw =>
    case Require(request, onReturn, onThrow) =>
      RequireCollects(expected, env, s, p, request);
      var (t, ok) := RequireModule(env, s, p, request);
      ScriptCollects(expected, env, t, p, if ok then onReturn else onThrow);
  }

  lemma {:induction false} RequireCollects(expected: (D.Path, D.Content) -> bool, env: Env, s: State, p: D.Path,
                                           request: D.Request)
    requires Supplies(expected, env.dictionary) && Collected(expected, s)
    ensures Collected(expected, RequireModule(env, s, p, request).0)
    decreases Pending(env, s.cache), 1
  {
    if p in env.dictionary && request in env.dictionary[p] {
      var file := env.dictionary[p][request];
      var t := Cached(s, file);
      assert file.path in Paths(env.dictionary);
      assert Pending(env, t.cache) == Pending(env, s.cache);
      ExecuteCollects(expected, env, t, file.path);
    }
  }

  /** The module `p` of the program that starts at `root`, with its own source. */
  ghost predicate IsModule(w: D.World, root: D.File, p: D.Path, content: D.Content) {
    D.Reachable(w, root, p) && D.Known(w, root, p) && content == D.ContentOf(w, root, p)
  }

  /** A user dependency of a collected module is found in the dictionary, so it is never looked up as
      a package; what is not a user dependency is never found there. */
  lemma DependencyFound(w: D.World, root: D.File, d: D.Dictionary, p: D.Path, request: D.Request)
    requires D.IsDictionary(w, root, d) && D.Reachable(w, root, p)
    requires request in D.RequestsOf(w, root, p).value
    ensures p in d
    ensures request in d[p] <==> D.LinkTo(w, root, p, request).Some?
    ensures request in d[p] ==> d[p][request].path == D.LinkTo(w, root, p, request).value
                                && d[p][request].path in d
  {
    assert D.Describes(w, root, p, d[p]);
    D.DictionaryClosed(w, root, d);
  }

  lemma EntryIsModule(w: D.World, root: D.File, d: D.Dictionary, p: D.Path, request: D.Request)
    requires D.IsDictionary(w, root, d) && p in d && request in d[p]
    ensures IsModule(w, root, d[p][request].path, d[p][request].content)
  {
    assert D.Describes(w, root, p, d[p]);
    D.DictionaryClosed(w, root, d);
  }

  lemma DictionarySuppliesModules(w: D.World, root: D.File, d: D.Dictionary)
    requires D.IsDictionary(w, root, d)
    ensures Supplies((p, content) => IsModule(w, root, p, content), d)
  {
    forall p, r | p in d && r in d[p] ensures IsModule(w, root, d[p][r].path, d[p][r].content) {
      EntryIsModule(w, root, d, p, r);
    }
  }

  function EntryCached(root: D.File): State {
    State(map[root.path := Sandbox(root.content, false, false)], [])
  }

  /** The cache and history after the entry file was loaded, `ok` or not. */
  function Loaded(env: Env, root: D.File): State {
    Execute(env, EntryCached(root), root.path).0
  }

  /** Loading an entry file from the dictionary built for it, whatever the module bodies do: every
      module that was cached is reachable from the entry, has its own source and was started. Its body
      has run, once, and the module is compiled, if its source compiles; if it does not, no body has
      run and the module stays compiling for ever. */
  lemma LoadingAnEntry(w: D.World, root: D.File, env: Env, p: D.Path)
    requires D.IsDictionary(w, root, env.dictionary)
    ensures Distinct(Loaded(env, root).executed) && root.path in Loaded(env, root).cache
    ensures p in Loaded(env, root).cache ==> IsModule(w, root, p, Loaded(env, root).cache[p].source)
    ensures p in Loaded(env, root).executed <==> p in Loaded(env, root).cache && Loaded(env, root).cache[p].isCompiled
    ensures p in Loaded(env, root).cache ==>
              (Loaded(env, root).cache[p].isCompiled <==> Compiles(env, Loaded(env, root).cache[p].source))
    ensures p in Loaded(env, root).cache ==>
              (Loaded(env, root).cache[p].isCompiling <==> !Compiles(env, Loaded(env, root).cache[p].source))
  {
    D.RootReachable(w, root);
    DictionarySuppliesModules(w, root, env.dictionary);
    ExecuteCollects((p, content) => IsModule(w, root, p, content), env, EntryCached(root), root.path);
    LoadedFlags(env, root, p);
  }

  lemma LoadedFlags(env: Env, root: D.File, p: D.Path)
    ensures var s := Loaded(env, root);
            && RunOnce(env, s)
            && (p in s.cache ==> (s.cache[p].isCompiled <==> Compiles(env, s.cache[p].source)))
            && (p in s.cache ==> (s.cache[p].isCompiling <==> !Compiles(env, s.cache[p].source)))
  {
    var start, s := EntryCached(root), Loaded(env, root);
    ExecuteOnce(env, start, root.path);
    assert !Running(env, start, p);
    assert Waiting(s, p) ==> p == root.path;
  }

  // ---- Sources that cannot be compiled ----

  /** The first execution of a source that cannot be compiled throws; every later one returns, although
      no body has run, and changes nothing. */
  lemma UncompilableThrowsOnce(env: Env, s: State, p: D.Path)
    requires p in s.cache && !s.cache[p].Started() && !Compiles(env, s.cache[p].source)
    ensures !Execute(env, s, p).1 && Execute(env, s, p).0.executed == s.executed
    ensures Execute(env, Execute(env, s, p).0, p) == (Execute(env, s, p).0, true)
  {
  }

  const ES_MODULE := "export const testData = 'es6 export';"
  const RETRYING := "try { require('./a') } catch (e) { require('./a') }"

  /** An entry that requires an ES module, catches the error and requires it again. */
  function RetryingEnv(): Env {
    var retrying := Require("./a", Done, Require("./a", Done, Throw));
    Env(map["/entry" := map["./a" := D.File("/a", ES_MODULE)], "/a" := map[]],
        (source: D.Content) => if source == ES_MODULE then None else Some(retrying),
        (request, path) => false)
  }

  /** The second require returns, so the entry ends normally although the module never ran. */
  lemma SecondRequireReturns()
    ensures var (s, ok) := Execute(RetryingEnv(), EntryCached(D.File("/entry", RETRYING)), "/entry");
            && ok && s.executed == ["/entry"]
            && "/a" in s.cache && s.cache["/a"] == Sandbox(ES_MODULE, true, false)
  {
    var env, start := RetryingEnv(), EntryCached(D.File("/entry", RETRYING));
    var file := D.File("/a", ES_MODULE);
    var script := env.compile(RETRYING).value;
    assert |RETRYING| != |ES_MODULE|;
    var begun := Recorded(Mark(start, "/entry", true, false), "/entry");
    var s := RequireModule(env, begun, "/entry", "./a").0;
    UncompilableThrowsOnce(env, Cached(begun, file), "/a");
    assert RequireModule(env, begun, "/entry", "./a") == (s, false);
    assert Cached(s, file) == s && RequireModule(env, s, "/entry", "./a") == (s, true);
    assert RunScript(env, s, "/entry", script.onThrow) == (s, true);
    assert RunScript(env, begun, "/entry", script) == (s, true);
  }

  // ---- The class ----

  /** The static cache of sandboxes and what loading does to it. */
  class Loader {
    const env: Env
    var modulesCache: map<D.Path, Sandbox>
    ghost var executed: seq<D.Path>

    ghost function Abs(): State
      reads this
    {
      State(modulesCache, executed)
    }

    constructor (env: Env)
      ensures this.env == env && Abs() == State(map[], [])
    {
      this.env := env;
      modulesCache := map[];
      executed := [];
    }

    method ExecuteSandbox(filename: D.Path) returns (ok: bool)
      requires filename in modulesCache
      modifies this
      ensures Abs() == Execute(env, old(Abs()), filename).0
      ensures ok == Execute(env, old(Abs()), filename).1
      decreases Pending(env, modulesCache), 0
    {
      var sandbox := modulesCache[filename];
      if sandbox.isCompiled || sandbox.isCompiling {
        return true;
      }
      ghost var before := modulesCache;
      modulesCache := modulesCache[filename := sandbox.(isCompiling := true)];
      assert filename in Pending(env, before) && filename !in Pending(env, modulesCache);
      var script := env.compile(sandbox.source);
      if script.None? {
        return false;
      }
      executed := executed + [filename];
      ok := RunInContext(filename, script.value);
      modulesCache := modulesCache[filename := Sandbox(modulesCache[filename].source, false, true)];
    }

    method RunInContext(filename: D.Path, script: Script) returns (ok: bool)
      modifies this
      ensures Abs() == RunScript(env, old(Abs()), filename, script).0
      ensures ok == RunScript(env, old(Abs()), filename, script).1
      decreases Pending(env, modulesCache), 2, script
    {
      match script {
        case Done => ok := true;
        case Throw => ok := false;
        case Require(request, onReturn, onThrow) =>
          var returned := RequirePath(filename, request);
          ok := RunInContext(filename, if returned then onReturn else onThrow);
      }
    }

    method RequirePath(filename: D.Path, requestPath: D.Request) returns (ok: bool)
      modifies this
      ensures Abs() == RequireModule(env, old(Abs()), filename, requestPath).0
      ensures ok == RequireModule(env, old(Abs()), filename, requestPath).1
      decreases Pending(env, modulesCache), 1
    {
      if filename in env.dictionary && requestPath in env.dictionary[filename] {
        var dependency := env.dictionary[filename][requestPath];
        ghost var before := modulesCache;
        if dependency.path !in modulesCache {
          modulesCache := modulesCache[dependency.path := Sandbox(dependency.content, false, false)];
        }
        assert dependency.path in Paths(env.dictionary);
        assert Pending(env, modulesCache) == Pending(env, before);
        ok := ExecuteSandbox(dependency.path);
      } else {
        ok := env.external(requestPath, filename);
      }
    }
  }
}
