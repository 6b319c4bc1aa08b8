/** core/fs-store/src/fs-store-server.ts as an object with a resolver object for each path and a pool.

    Each method is one atomic part of an asynchronous handler and is proved to perform the matching
    step of FileStores; `entries` records for every request how far its handlers have come. `table` is
    the state each resolver is in, and `owner` says to which path each of their objects belongs, so
    that what is done to one path leaves the others alone. */
module FileStoreServers {
  import opened Common
  import opened MultiLocks
  import opened LockPools
  import LP = LockPools
  import opened FilePermissionResolvers
  import FP = FilePermissions
  import FS = FileStores

  type Files = map<FS.Path, FilePermissionResolver>
  type Table = map<FS.Path, FP.File>
  type Owners = map<object, FS.Path>

  datatype Status = OK | ImpossibleToLock | ImpossibleToAccess | Pending | NoExist

  // ---- Resolvers that do not share objects ----

  /** The state of a resolver, if it is valid. */
  ghost function StateOf(r: FilePermissionResolver): Option<FP.File>
    reads r.Repr
  {
    if r.Valid() then Some(r.Abs()) else None
  }

  ghost predicate Owned(files: Files, owner: Owners) {
    forall p :: p in files ==> Owns(files[p], p, owner)
  }

  ghost predicate Owns(r: FilePermissionResolver, path: FS.Path, owner: Owners) {
    forall o :: o in r.Repr ==> o in owner && owner[o] == path
  }

  ghost function Objects(files: Files): set<object> {
    set p, o | p in files && o in files[p].Repr :: o
  }

  ghost function ObjectsBut(files: Files, path: FS.Path): set<object> {
    set p, o | p in files && p != path && o in files[p].Repr :: o
  }

  ghost predicate AllInState(files: Files, table: Table)
    reads Objects(files)
  {
    forall p :: p in files ==> p in table && StateOf(files[p]) == Some(table[p])
  }

  ghost predicate OthersInState(files: Files, table: Table, path: FS.Path)
    reads ObjectsBut(files, path)
  {
    forall p :: p in files && p != path ==> p in table && StateOf(files[p]) == Some(table[p])
  }

  /** The resolver objects of files, with the one that more has for the path if it had none. */
  function Joined(files: Files, more: Files, path: FS.Path): Files {
    if path in files || path !in more then files else files[path := more[path]]
  }

  lemma JoinedIs(files: Files, more: Files, path: FS.Path)
    requires path in more && more == (if path in files then files else files[path := more[path]])
    ensures more == Joined(files, more, path)
  {
  }

  lemma Separate(files: Files, path: FS.Path, owner: Owners)
    requires Owned(files, owner) && path in files
    ensures files[path].Repr !! ObjectsBut(files, path)
  {
  }

  lemma TakeOut(files: Files, table: Table, path: FS.Path)
    requires AllInState(files, table) && path in files
    ensures path in table && StateOf(files[path]) == Some(table[path]) && OthersInState(files, table, path)
  {
  }

  lemma PutBack(files: Files, table: Table, path: FS.Path, f: FP.File)
    requires path in files && StateOf(files[path]) == Some(f) && OthersInState(files, table, path)
    ensures AllInState(files, table[path := f])
  {
  }

  ghost function Extended(owner: Owners, path: FS.Path, r: FilePermissionResolver): Owners {
    map o | o in owner.Keys + r.Repr :: if o in r.Repr then path else owner[o]
  }

  lemma Install(files: Files, table: Table, owner: Owners, path: FS.Path, r: FilePermissionResolver)
    requires Owned(files, owner) && AllInState(files, table) && path !in files
    requires StateOf(r) == Some(FP.NewFile()) && r.Repr !! Objects(files)
    ensures Owned(files[path := r], Extended(owner, path, r))
    ensures AllInState(files[path := r], table[path := FP.NewFile()])
  {
  }

  lemma ObjectsExtended(files: Files, path: FS.Path, r: FilePermissionResolver)
    requires path !in files
    ensures Objects(files[path := r]) == Objects(files) + r.Repr
  {
    var more := files[path := r];
    forall o | o in Objects(files) ensures o in Objects(more) {
      var p :| p in files && o in files[p].Repr;
      assert p in more && o in more[p].Repr;
    }
    assert path in more && more[path] == r;
  }

  method NewResolver(files: Files, ghost table: Table) returns (r: FilePermissionResolver)
    requires AllInState(files, table)
    ensures AllInState(files, table) && StateOf(r) == Some(FP.NewFile())
    ensures fresh(r.Repr) && r.Repr !! Objects(files)
  {
    r := new FilePermissionResolver();
  }

  /** The table with a new resolver for a path that has none yet. */
  method WithResolver(files: Files, path: FS.Path, ghost table: Table, ghost owner: Owners)
    returns (more: Files, ghost owners: Owners, ghost added: set<object>)
    requires Owned(files, owner) && AllInState(files, table) && path !in files
    ensures path in more && more == files[path := more[path]] && Owned(more, owners)
    ensures AllInState(more, table[path := FP.NewFile()])
    ensures Objects(more) == Objects(files) + added && fresh(added)
  {
    var r := NewResolver(files, table);
    Install(files, table, owner, path, r);
    ObjectsExtended(files, path, r);
    more, owners, added := files[path := r], Extended(owner, path, r), r.Repr;
  }

  predicate IsRequest(e: FP.Event) {
    e.ELock? || e.EHookAccess? || e.EHookUnlink?
  }

  predicate IsRelease(e: FP.Event) {
    e.EUnlock? || e.EReleaseAccess? || e.EReleaseUnlink?
  }

  method CallRequest(r: FilePermissionResolver, e: FP.Event, ghost f: FP.File, ghost g: FP.File) returns (ok: bool)
    requires StateOf(r) == Some(f) && g == FP.Step(f, e) && IsRequest(e)
    modifies r.Repr
    ensures StateOf(r) == Some(g) && ok == Accepted(f, e)
  {
    if e.ELock? {
      ok := r.Lock(e.req.worker, e.req.request);
    } else if e.EHookAccess? {
      ok := r.HookAccess(e.req.worker, e.req.request);
    } else {
      r.HookUnlink(e.req.worker, e.req.request);
      ok := true;
    }
  }

  method CallRelease(r: FilePermissionResolver, e: FP.Event, ghost f: FP.File, ghost g: FP.File)
    requires StateOf(r) == Some(f) && g == FP.Step(f, e) && IsRelease(e)
    modifies r.Repr
    ensures StateOf(r) == Some(g)
  {
    if e.EUnlock? {
      r.Unlock(e.worker);
    } else if e.EReleaseAccess? {
      r.ReleaseAccess(e.req.worker, e.req.request);
    } else {
      r.ReleaseUnlink(e.req.worker, e.req.request);
    }
  }

  /** One call of the resolver of a path, which takes it to the state g. */
  method CallResolver(files: Files, path: FS.Path, e: FP.Event, ghost table: Table, ghost owner: Owners,
                      ghost g: FP.File) returns (ok: bool)
    requires path in files && Owned(files, owner) && AllInState(files, table) && g == FP.Step(table[path], e)
    requires IsRequest(e) || IsRelease(e)
    modifies files[path].Repr
    ensures AllInState(files, table[path := g]) && ok == Accepted(table[path], e)
  {
    TakeOut(files, table, path);
    Separate(files, path, owner);
    if IsRequest(e) {
      ok := CallRequest(files[path], e, table[path], g);
    } else {
      CallRelease(files[path], e, table[path], g);
      ok := true;
    }
    PutBack(files, table, path, g);
  }

  /** The resolver's answer to a call. */
  function Accepted(f: FP.File, e: FP.Event): bool {
    match e
    case ELock(q) => FP.Lock(f, q).1
    case EHookAccess(q) => FP.HookAccess(f, q).1
    case _ => true
  }

  /** The call that a request makes, and the one its release closure makes. */
  function CallOf(kind: FS.Kind, q: FP.Req): FP.Event {
    match kind
    case KLock => FP.ELock(q)
    case KAccess => FP.EHookAccess(q)
    case KUnlink => FP.EHookUnlink(q)
  }

  function ClosureOf(kind: FS.Kind, q: FP.Req): FP.Event {
    if kind == FS.KAccess then FP.EReleaseAccess(q) else FP.EReleaseUnlink(q)
  }

  function PhaseAfter(kind: FS.Kind, ok: bool): FS.Phase {
    if !ok then FS.Refused else if kind == FS.KLock then FS.LockHeld else FS.Requested
  }

  lemma PutSame(m: Table, path: FS.Path)
    requires path in m
    ensures m[path := m[path]] == m
  {
  }

  lemma PutTwice(m: Table, path: FS.Path, f: FP.File, g: FP.File)
    ensures m[path := f][path := g] == m[path := g]
  {
  }

  /** The answer that is sent at once, if any. */
  function Answer(kind: FS.Kind, phase: FS.Phase): Status {
    match phase
    case LockHeld => OK
    case Refused => if kind == FS.KLock then ImpossibleToLock else ImpossibleToAccess
    case _ => Pending
  }

  /** The deletion of the file has begun. */
  predicate DeletedAt(table: Table, path: FS.Path) {
    path in table && table[path].state in {FP.Deleting, FP.Deleted}
  }

  /** The answer to a request is decided by its kind and by whether the deletion of the file has begun. */
  ghost predicate RightAnswer(kind: FS.Kind, deleted: bool, status: Status) {
    && (status == OK <==> kind == FS.KLock && !deleted)
    && (status == ImpossibleToLock <==> kind == FS.KLock && deleted)
    && (status == ImpossibleToAccess <==> kind == FS.KAccess && deleted)
    && (status == Pending <==> kind == FS.KUnlink || (kind == FS.KAccess && !deleted))
  }

  lemma AnswerIsRight(s: FS.Store, kind: FS.Kind, q: FP.Req, path: FS.Path)
    ensures var t := FS.Request(s, kind, q.request, q.worker, path);
            && q.request in t.entries
            && RightAnswer(kind, DeletedAt(s.files, path), Answer(kind, t.entries[q.request].phase))
            && (kind == FS.KLock && !DeletedAt(s.files, path) ==>
                  t.entries[q.request] == FS.Entry(q.worker, path, FS.KLock, FS.LockHeld)
                  && t.files[path].locks == FS.FileAt(s, path).locks + multiset{q.worker})
  {
  }

  /** What the handler of a request has to leave behind. */
  lemma RequestMade(s: FS.Store, kind: FS.Kind, q: FP.Req, path: FS.Path, f: FP.File, g: FP.File)
    requires f == FS.FileAt(s, path) && g == FP.Step(f, CallOf(kind, q))
    ensures FS.Request(s, kind, q.request, q.worker, path) ==
            FS.Store(s.files[path := g], s.pool,
                     s.entries[q.request := FS.Entry(q.worker, path, kind, PhaseAfter(kind, Accepted(f, CallOf(kind, q))))])
  {
  }

  /** What a release closure has to leave behind. */
  lemma CloseMade(s: FS.Store, t: FS.Store, r: string)
    requires r in s.entries && s.entries[r].path in s.files && t.pool == s.pool
    requires var e := s.entries[r];
             && t.files == s.files[e.path := FP.Step(s.files[e.path], ClosureOf(e.kind, FP.Req(e.worker, r)))]
             && t.entries == s.entries[r := e.(phase := FS.Done)]
    ensures t == FS.Close(s, r)
  {
  }

  // ---- The server ----

  class FSStoreServer {
    var files: Files
    const pool: LockPool
    var entries: FS.Entries
    ghost var table: Table
    ghost var owner: Owners

    ghost function Own(): set<object> {
      {this, pool, pool.poolLock, pool.requestQue}
    }

    ghost predicate Separated()
      reads this
    {
      Owned(files, owner) && files.Keys == table.Keys && Own() !! Objects(files)
    }

    ghost predicate Valid()
      reads Own(), Objects(files)
    {
      Separated() && PoolState().Some? && AllInState(files, table)
    }

    /** The state of the pool, if it is valid. */
    ghost function PoolState(): Option<Pool>
      reads Own()
    {
      if pool.Valid() then Some(pool.Abs()) else None
    }

    ghost function Abs(): FS.Store
      requires PoolState().Some?
      reads Own()
    {
      FS.Store(table, PoolState().value, entries)
    }

    constructor (threadCount: int)
      ensures Valid() && fresh(Own()) && files == map[]
      ensures Abs() == FS.NewStore(threadCount)
    {
      files, table, entries, owner := map[], map[], map[], map[];
      pool := new LockPool(threadCount);
    }

    method AddResolver(path: FS.Path) returns (ghost added: set<object>)
      requires Valid() && path !in files
      modifies this`files, this`table, this`owner
      ensures Valid() && path in files && Objects(files) == old(Objects(files)) + added && fresh(added)
      ensures files == Joined(old(files), files, path)
      ensures table == old(table)[path := FP.NewFile()] && PoolState() == old(PoolState())
    {
      var more, owners, news := WithResolver(files, path, table, owner);
      added := news;
      JoinedIs(files, more, path);
      Adopt(more, table[path := FP.NewFile()], owners);
    }

    method Adopt(files: Files, ghost table: Table, ghost owner: Owners)
      requires Owned(files, owner) && files.Keys == table.Keys && Own() !! Objects(files)
      requires PoolState().Some? && AllInState(files, table)
      modifies this`files, this`table, this`owner
      ensures this.files == files && this.table == table && Valid() && PoolState() == old(PoolState())
    {
      SetGhosts(files, table, owner);
      SetFiles(files);
    }

    /** A path without a resolver gets one; the resolvers of the other paths stay the same objects. */
    method EnsurePermissionQueue(path: FS.Path) returns (ghost added: set<object>)
      requires Valid()
      modifies this`files, this`table, this`owner
      ensures Valid() && path in files && Objects(files) == old(Objects(files)) + added && fresh(added)
      ensures files == Joined(old(files), files, path)
      ensures table == old(table)[path := FS.FileAt(old(Abs()), path)] && PoolState() == old(PoolState())
    {
      if path !in files {
        added := AddResolver(path);
      } else {
        added := {};
        JoinedIs(files, files, path);
        PutSame(table, path);
      }
    }

    ghost method SetGhosts(files: Files, table: Table, owner: Owners)
      requires Owned(files, owner) && Own() !! Objects(files) && PoolState().Some? && AllInState(files, table)
      modifies this`table, this`owner
      ensures this.table == table && this.owner == owner && AllInState(files, table) && PoolState() == old(PoolState())
    {
      this.table := table;
      this.owner := owner;
    }

    method SetFiles(files: Files)
      requires Owned(files, owner) && files.Keys == table.Keys && Own() !! Objects(files)
      requires PoolState().Some? && AllInState(files, table)
      modifies this`files
      ensures this.files == files && Valid() && PoolState() == old(PoolState())
    {
      this.files := files;
    }

    method SetEntry(requestId: string, entry: FS.Entry)
      requires Valid()
      modifies this`entries
      ensures entries == old(entries)[requestId := entry] && Valid() && PoolState() == old(PoolState())
    {
      entries := entries[requestId := entry];
    }

    /** The record of a file's state changes; its resolver follows. */
    ghost method Note(path: FS.Path, f: FP.File)
      requires Valid() && path in files
      modifies this`table
      ensures table == old(table)[path := f] && PoolState() == old(PoolState())
      ensures Separated() && AllInState(files, old(table))
    {
      table := table[path := f];
    }

    /** One call of the resolver of a path, which takes it to the state g. */
    method CallAt(path: FS.Path, e: FP.Event, ghost g: FP.File) returns (ok: bool)
      requires Valid() && path in files && g == FP.Step(table[path], e) && (IsRequest(e) || IsRelease(e))
      modifies this`table, Objects(files)
      ensures Valid() && PoolState() == old(PoolState())
      ensures table == old(table)[path := g] && ok == Accepted(old(table)[path], e)
    {
      ghost var before := table;
      Note(path, g);
      OwnApart(path);
      ok := CallApart(path, e, before, g);
    }

    /** A call of a resolver touches neither the server nor its pool. */
    method CallApart(path: FS.Path, e: FP.Event, ghost table: Table, ghost g: FP.File) returns (ok: bool)
      requires path in files && Own() !! files[path].Repr && Owned(files, owner) && AllInState(files, table)
      requires g == FP.Step(table[path], e) && (IsRequest(e) || IsRelease(e))
      modifies files[path].Repr
      ensures AllInState(files, table[path := g]) && ok == Accepted(table[path], e)
      ensures PoolState() == old(PoolState())
    {
      ok := CallResolver(files, path, e, table, owner, g);
    }

    lemma OwnApart(path: FS.Path)
      requires Separated() && path in files
      ensures Own() !! files[path].Repr && files[path].Repr <= Objects(files)
    {
      forall o | o in files[path].Repr ensures o in Objects(files) {
      }
    }

    method AcquireSlot(worker: Id, request: string) returns (outcome: Outcome)
      requires Valid()
      modifies pool, pool.poolLock, pool.requestQue
      ensures Valid()
      ensures PoolState() == Some(LP.AcquireSlot(old(PoolState()).value, worker, Some(request)).0)
      ensures outcome == LP.AcquireSlot(old(PoolState()).value, worker, Some(request)).1
    {
      outcome := pool.Acquire(worker, Some(request));
    }

    method ReleaseSlot(worker: Id, request: string)
      requires Valid()
      modifies pool, pool.poolLock, pool.requestQue
      ensures Valid()
      ensures PoolState() == Some(LP.ReleaseSlot(old(PoolState()).value, worker, request).0)
    {
      var released := pool.Release(worker, request);
    }

    /** A call of the resolver of a path, which is created if it is missing. */
    method Ask(path: FS.Path, e: FP.Event, ghost f: FP.File, ghost g: FP.File)
      returns (ok: bool, ghost added: set<object>)
      requires Valid() && f == FS.FileAt(Abs(), path) && g == FP.Step(f, e) && IsRequest(e)
      modifies this`files, this`table, this`owner, Objects(files)
      ensures Valid() && PoolState() == old(PoolState())
      ensures Objects(files) == old(Objects(files)) + added && fresh(added)
      ensures files == Joined(old(files), files, path)
      ensures table == old(table)[path := g] && ok == Accepted(f, e)
    {
      ghost var before := table;
      added := EnsurePermissionQueue(path);
      assert table[path] == f;
      ok := CallAt(path, e, g);
      PutTwice(before, path, f, g);
    }

    /** The same, and the record of the request and of the resolver's answer. */
    method AskFor(kind: FS.Kind, q: FP.Req, path: FS.Path, ghost f: FP.File, ghost g: FP.File)
      returns (ok: bool, ghost added: set<object>)
      requires Valid() && f == FS.FileAt(Abs(), path) && g == FP.Step(f, CallOf(kind, q))
      modifies this`files, this`table, this`owner, this`entries, Objects(files)
      ensures Valid() && PoolState() == old(PoolState()) && table == old(table)[path := g]
      ensures files == Joined(old(files), files, path)
      ensures Objects(files) == old(Objects(files)) + added && fresh(added)
      ensures ok == Accepted(f, CallOf(kind, q))
      ensures entries == old(entries)[q.request := FS.Entry(q.worker, path, kind, PhaseAfter(kind, ok))]
    {
      ok, added := Ask(path, CallOf(kind, q), f, g);
      SetEntry(q.request, FS.Entry(q.worker, path, kind, PhaseAfter(kind, ok)));
    }

    // ---- The handlers ----

    /** A request with a fresh id: ask the file's resolver, and answer at once if it refuses or locks. */
    method RequestAction(action: FS.Kind, worker: Id, requestId: string, path: FS.Path)
      returns (status: Status, ghost added: set<object>)
      requires Valid() && FS.Enabled(Abs(), FS.ERequest(action, requestId, worker, path))
      modifies this`files, this`table, this`owner, this`entries, Objects(files)
      ensures Valid() && Abs() == FS.Request(old(Abs()), action, requestId, worker, path)
      ensures status == OK <==> action == FS.KLock && !DeletedAt(old(table), path)
      ensures status == ImpossibleToLock <==> action == FS.KLock && DeletedAt(old(table), path)
      ensures status == ImpossibleToAccess <==> action == FS.KAccess && DeletedAt(old(table), path)
      ensures status == Pending <==> action == FS.KUnlink || (action == FS.KAccess && !DeletedAt(old(table), path))
      ensures requestId in entries && (status == OK ==> entries[requestId].phase == FS.LockHeld)
      ensures files == Joined(old(files), files, path)
      ensures Objects(files) == old(Objects(files)) + added && fresh(added)
    {
      var request := FP.Req(worker, requestId);
      ghost var before := Abs();
      ghost var f := FS.FileAt(before, path);
      ghost var g := FP.Step(f, CallOf(action, request));
      RequestMade(before, action, request, path, f, g);
      AnswerIsRight(before, action, request, path);
      var ok, news := AskFor(action, request, path, f, g);
      added := news;
      status := Answer(action, PhaseAfter(action, ok));
    }

    /** The continuation of a called-back request: acquire a slot and, if one is free, answer OK. */
    method AcquireSlotFor(requestId: string) returns (status: Status)
      requires Valid() && FS.Enabled(Abs(), FS.EAcquire(requestId))
      modifies this`entries, pool, pool.poolLock, pool.requestQue
      ensures Valid() && Abs() == FS.Acquire(old(Abs()), requestId)
      ensures status == if LP.AcquireSlot(old(Abs()).pool, old(entries)[requestId].worker, Some(requestId)).1 == Granted
                        then OK else Pending
    {
      var entry := entries[requestId];
      var outcome := AcquireSlot(entry.worker, requestId);
      SetEntry(requestId, entry.(phase := FS.Acquiring));
      status := if outcome == Granted then OK else Pending;
    }

    /** The release handler of an access or an unlink, up to its last await. */
    method ReleaseAction(requestId: string) returns (status: Status)
      requires Valid() && FS.Enabled(Abs(), FS.ERelease(requestId))
      modifies this`entries, pool, pool.poolLock, pool.requestQue
      ensures Valid()
      ensures status == if old(entries)[requestId].path in files then OK else NoExist
      ensures Abs() == if status == OK then FS.Release(old(Abs()), requestId) else old(Abs())
    {
      var entry := entries[requestId];
      if entry.path !in files {
        return NoExist;
      }
      ReleaseSlot(entry.worker, requestId);
      SetEntry(requestId, entry.(phase := FS.Freed));
      status := OK;
    }

    /** The rest of the release handler: the closure that the resolver handed out. */
    method CleanUp(requestId: string)
      requires Valid() && FS.Enabled(Abs(), FS.EClose(requestId)) && entries[requestId].path in files
      modifies this`entries, this`table, Objects(files)
      ensures Valid() && Abs() == FS.Close(old(Abs()), requestId)
    {
      var entry := entries[requestId];
      var request := FP.Req(entry.worker, requestId);
      ghost var before := Abs();
      SetEntry(requestId, entry.(phase := FS.Done));
      var closure := ClosureOf(entry.kind, request);
      var ok := CallAt(entry.path, closure, FP.Step(table[entry.path], closure));
      CloseMade(before, Abs(), requestId);
    }

    method ReleaseLock(requestId: string) returns (status: Status)
      requires Valid() && FS.Enabled(Abs(), FS.EUnlock(requestId))
      modifies this`entries, this`table, Objects(files)
      ensures Valid()
      ensures status == if old(entries)[requestId].path in files then OK else NoExist
      ensures Abs() == if status == OK then FS.Unlock(old(Abs()), requestId) else old(Abs())
    {
      var entry := entries[requestId];
      if entry.path !in files {
        return NoExist;
      }
      SetEntry(requestId, entry.(phase := FS.Done));
      var ok := CallAt(entry.path, FP.EUnlock(entry.worker), FP.Unlock(table[entry.path], entry.worker));
      status := OK;
    }
  }
}
