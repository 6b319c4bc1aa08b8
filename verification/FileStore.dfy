/** core/fs-store/src/fs-store-server.ts: any number of files and workers behind one slot pool.

    A request for access or unlink passes two queues: first its file's resolver, then the pool. The
    handlers are asynchronous, so they are cut at their awaits: the resolver's callback runs, later
    `pool.acquire` is called, later the slot is granted and OK is sent; on release the slot is given
    back first and the resolver's closure runs in a later step. */
module FileStores {
  import opened Common
  import opened MultiLocks
  import LP = LockPools
  import FP = FilePermissions

  type Path = string
  type File = FP.File

  datatype Kind = KLock | KAccess | KUnlink

  datatype Phase =
    | Requested    // the resolver has the request, queued or called back
    | Acquiring    // `pool.acquire` was called; OK is sent when the slot is granted
    | Freed        // the slot was given back; the resolver's closure still has to run
    | LockHeld     // a granted lock; locks do not use the pool
    | Done
    | Refused
  {
    predicate InHand() { Requested? || Acquiring? || Freed? }
  }

  datatype Entry = Entry(worker: Id, path: Path, kind: Kind, phase: Phase)

  type Entries = map<string, Entry>

  datatype Store = Store(files: map<Path, File>, pool: LP.Pool, entries: Entries)

  function NewStore(threadCount: int): Store {
    Store(map[], LP.NewPool(threadCount), map[])
  }

  function FileAt(s: Store, path: Path): File {
    if path in s.files then s.files[path] else FP.NewFile()
  }

  function ReqOf(s: Store, r: string): FP.Req
    requires r in s.entries
  {
    FP.Req(s.entries[r].worker, r)
  }

  function WithPhase(s: Store, r: string, phase: Phase): Entries
    requires r in s.entries
  {
    s.entries[r := s.entries[r].(phase := phase)]
  }

  // ---- The steps ----

  function Request(s: Store, kind: Kind, r: string, worker: Id, path: Path): Store {
    var q := FP.Req(worker, r);
    match kind
    case KLock =>
      var (f, ok) := FP.Lock(FileAt(s, path), q);
      s.(files := s.files[path := f],
         entries := s.entries[r := Entry(worker, path, KLock, if ok then LockHeld else Refused)])
    case KAccess =>
      var (f, ok) := FP.HookAccess(FileAt(s, path), q);
      s.(files := s.files[path := f],
         entries := s.entries[r := Entry(worker, path, KAccess, if ok then Requested else Refused)])
    case KUnlink =>
      s.(files := s.files[path := FP.HookUnlink(FileAt(s, path), q)],
         entries := s.entries[r := Entry(worker, path, KUnlink, Requested)])
  }

  /** The callback's continuation: ask the pool for a slot. */
  function Acquire(s: Store, r: string): Store
    requires r in s.entries
  {
    s.(pool := LP.AcquireSlot(s.pool, s.entries[r].worker, Some(r)).0,
       entries := WithPhase(s, r, Acquiring))
  }

  /** The release handler up to its last await: give the slot back. */
  function Release(s: Store, r: string): Store
    requires r in s.entries
  {
    s.(pool := LP.ReleaseSlot(s.pool, s.entries[r].worker, r).0,
       entries := WithPhase(s, r, Freed))
  }

  /** The effect of the closure that the resolver handed out with a grant. */
  function Closed(f: File, kind: Kind, q: FP.Req): File {
    if kind == KAccess then FP.ReleaseAccess(f, q) else FP.ReleaseUnlink(f, q)
  }

  /** The rest of the release handler: run the closure. */
  function Close(s: Store, r: string): Store
    requires r in s.entries
  {
    var e := s.entries[r];
    s.(files := s.files[e.path := Closed(FileAt(s, e.path), e.kind, ReqOf(s, r))],
       entries := WithPhase(s, r, Done))
  }

  function Unlock(s: Store, r: string): Store
    requires r in s.entries
  {
    var e := s.entries[r];
    s.(files := s.files[e.path := FP.Unlock(FileAt(s, e.path), e.worker)],
       entries := WithPhase(s, r, Done))
  }

  // ---- Where a request is ----

  function Granted(p: LP.Pool): set<Option<string>> {
    set t | t in p.granted :: t.request
  }

  function Waiting(p: LP.Pool): set<Option<string>> {
    set t | t in p.waiting :: t.request
  }

  /** The request was sent its OK and has not been released. */
  predicate Holding(es: Entries, granted: set<Option<string>>, r: string) {
    r in es && es[r].phase == Acquiring && Some(r) in granted
  }

  /** The resolver has called the request's callback, which has not asked the pool yet. */
  predicate Called(s: Store, r: string) {
    && r in s.entries
    && s.entries[r].phase == Requested
    && (var e := s.entries[r];
        if e.kind == KAccess then ReqOf(s, r) in FileAt(s, e.path).holders
        else ReqOf(s, r) in FileAt(s, e.path).unlinking)
  }

  datatype Event =
    | ERequest(kind: Kind, id: string, worker: Id, path: Path)
    | EAcquire(id: string)
    | ERelease(id: string)
    | EClose(id: string)
    | EUnlock(id: string)

  /** Request ids are fresh, continuations run when they are due, and clients release what they were
      granted, once. */
  predicate Enabled(s: Store, e: Event) {
    match e
    case ERequest(_, r, _, _) => r !in s.entries && r != ""
    case EAcquire(r) => Called(s, r)
    case ERelease(r) => Holding(s.entries, Granted(s.pool), r)
    case EClose(r) => r in s.entries && s.entries[r].phase == Freed
    case EUnlock(r) => r in s.entries && s.entries[r].phase == LockHeld
  }

  function Step(s: Store, e: Event): Store
    requires Enabled(s, e)
  {
    match e
    case ERequest(kind, r, w, p) => Request(s, kind, r, w, p)
    case EAcquire(r) => Acquire(s, r)
    case ERelease(r) => Release(s, r)
    case EClose(r) => Close(s, r)
    case EUnlock(r) => Unlock(s, r)
  }

  /** t is reached from s by the enabled steps es, in that order. */
  ghost predicate Reaches(s: Store, es: seq<Event>, t: Store)
    decreases |es|
  {
    if es == [] then s == t
    else Enabled(s, es[0]) && Reaches(Step(s, es[0]), es[1..], t)
  }

  // ---- The invariant: every request is exactly where its phase says ----

  /** What a file has in hand: its access and its unlink requests, waiting or granted, its locks, and
      which of the requests still wait in a queue. A grant changes only the last. */
  datatype View = View(access: multiset<FP.Req>, unlink: multiset<FP.Req>, locks: multiset<Id>, queued: set<FP.Req>)

  function ViewOf(f: File): View {
    View(multiset(f.access) + f.holders,
         multiset(f.del) + f.unlinking,
         f.locks,
         (set q | q in f.access) + (set q | q in f.del))
  }

  predicate Live(es: Entries, q: FP.Req, path: Path, kind: Kind) {
    && q.request in es
    && (var e := es[q.request];
        e.worker == q.worker && e.path == path && e.kind == kind && e.phase.InHand())
  }

  predicate LiveRequested(es: Entries, q: FP.Req, path: Path) {
    && q.request in es && es[q.request].worker == q.worker && es[q.request].path == path
    && es[q.request].phase == Requested
  }

  function LocksOf(es: Entries, path: Path, worker: Id): set<string> {
    set r | r in es && es[r] == Entry(worker, path, KLock, LockHeld)
  }

  function Count(b: bool): nat {
    if b then 1 else 0
  }

  /** A file with this view has in hand exactly the live requests and the held locks that the entries
      record for the path, and only requests that have not been called back wait in its queues. */
  ghost predicate Fits(es: Entries, v: View, path: Path) {
    && (forall q :: v.access[q] == Count(Live(es, q, path, KAccess)))
    && (forall q :: v.unlink[q] == Count(Live(es, q, path, KUnlink)))
    && (forall q :: q in v.queued ==> LiveRequested(es, q, path))
    && (forall w :: v.locks[w] == |LocksOf(es, path, w)|)
  }

  ghost predicate KindMatches(e: Entry) {
    && (e.phase.InHand() ==> e.kind != KLock)
    && (e.phase == LockHeld ==> e.kind == KLock)
  }

  ghost predicate FilesFit(s: Store) {
    forall p :: p in s.files ==> FP.FileInv(s.files[p]) && Fits(s.entries, ViewOf(s.files[p]), p)
  }

  ghost predicate EntriesKnown(s: Store) {
    && (forall r :: r in s.entries && s.entries[r].phase !in {Done, Refused} ==> s.entries[r].path in s.files)
    && (forall r :: r in s.entries ==> KindMatches(s.entries[r]))
    && "" !in s.entries
  }

  ghost predicate FilesInv(s: Store) {
    FilesFit(s) && EntriesKnown(s)
  }

  function HoldingSet(es: Entries, granted: set<Option<string>>): set<string> {
    set r | r in es && Holding(es, granted, r)
  }

  function HoldingOf(es: Entries, granted: set<Option<string>>, worker: Id): set<string> {
    set r | r in es && Holding(es, granted, r) && es[r].worker == worker
  }

  /** Each ticket belongs to a request that asked the pool, and no request has two. */
  ghost predicate TicketsKnown(es: Entries, p: LP.Pool) {
    && (forall t :: t in LP.Line(p) ==>
          t.request.Some? && t.request.value in es && es[t.request.value].phase != Requested)
    && (forall t, u :: t in LP.Line(p) && u in LP.Line(p) && t.request == u.request ==> t == u)
    && (forall n :: n in p.requests ==> n in es && es[n].phase != Requested)
  }

  /** A waiting ticket's request is acquiring, and an acquiring request waits or holds a slot. */
  ghost predicate QueueLinked(es: Entries, p: LP.Pool) {
    && (forall t :: t in p.waiting ==>
          t.request.Some? && t.request.value in es
          && es[t.request.value].phase == Acquiring && es[t.request.value].worker == t.worker)
    && (forall r :: r in es && es[r].phase == Acquiring ==>
          Some(r) in Granted(p) || Some(r) in Waiting(p))
  }

  /** The held slots count exactly the holders, in total and for every worker. */
  ghost predicate SlotsCounted(es: Entries, granted: set<Option<string>>, held: multiset<Id>) {
    && |held| == |HoldingSet(es, granted)|
    && (forall w :: held[w] == |HoldingOf(es, granted, w)|)
  }

  ghost predicate PoolLinked(es: Entries, p: LP.Pool) {
    LP.PoolInv(p) && TicketsKnown(es, p) && QueueLinked(es, p) && SlotsCounted(es, Granted(p), p.held)
  }

  ghost predicate StoreInv(s: Store) {
    FilesInv(s) && PoolLinked(s.entries, s.pool)
  }

  // ---- Effects of resolver steps on views ----

  /** w has the requests and locks of v, and nobody joined a queue but possibly the requests in new. */
  ghost predicate Regroups(v: View, w: View, joined: set<FP.Req>) {
    w.access == v.access && w.unlink == v.unlink && w.locks == v.locks && w.queued <= v.queued + joined
  }

  lemma TryDeleteRegroups(f: File)
    ensures Regroups(ViewOf(f), ViewOf(FP.TryDelete(f)), {})
  {
    if f.del != [] {
      assert f.del == [f.del[0]] + f.del[1..];
    }
  }

  lemma ChkEmptyRegroups(f: File)
    ensures Regroups(ViewOf(f), ViewOf(FP.ChkEmpty(f)), {})
  {
    TryDeleteRegroups(f.(state := FP.Free));
  }

  /** Moving the head of the access queue to the holders. */
  lemma GrantRegroups(access: seq<FP.Req>, holders: multiset<FP.Req>)
    requires access != []
    ensures multiset(access[1..]) + (holders + multiset{access[0]}) == multiset(access) + holders
    ensures (set q | q in access[1..]) <= (set q | q in access)
  {
    assert access == [access[0]] + access[1..];
  }

  lemma TryAccessRegroups(f: File)
    ensures Regroups(ViewOf(f), ViewOf(FP.TryAccess(f).0), {})
  {
    if f.access == [] {
      ChkEmptyRegroups(f);
    } else {
      GrantRegroups(f.access, f.holders);
    }
  }

  lemma LockEffect(f: File, q: FP.Req)
    requires FP.FileInv(f)
    ensures FP.FileInv(FP.Lock(f, q).0)
    ensures var v := ViewOf(f);
            Regroups(if FP.Lock(f, q).1 then v.(locks := v.locks + multiset{q.worker}) else v,
                     ViewOf(FP.Lock(f, q).0), {})
  {
  }

  lemma HookAccessEffect(f: File, q: FP.Req)
    requires FP.FileInv(f)
    ensures FP.FileInv(FP.HookAccess(f, q).0)
    ensures var v := ViewOf(f);
            if FP.HookAccess(f, q).1
            then Regroups(v.(access := v.access + multiset{q}), ViewOf(FP.HookAccess(f, q).0), {q})
            else FP.HookAccess(f, q).0 == f
  {
    FP.HookAccessKeepsInv(f, q);
    if !f.IsDeleted() {
      var g := f.(access := f.access + [q]);
      TryAccessRegroups(g);
      QueuedView(f, q);
      RegroupsJoined(ViewOf(f).(access := ViewOf(f).access + multiset{q}), ViewOf(g), ViewOf(FP.TryAccess(g).0), q);
    }
  }

  /** A request that joins the access queue. */
  lemma QueuedView(f: File, q: FP.Req)
    ensures var v := ViewOf(f);
            ViewOf(f.(access := f.access + [q])) == v.(access := v.access + multiset{q}, queued := v.queued + {q})
  {
  }

  lemma RegroupsJoined(v: View, u: View, w: View, q: FP.Req)
    requires u == v.(queued := v.queued + {q}) && Regroups(u, w, {})
    ensures Regroups(v, w, {q})
  {
  }

  lemma HookUnlinkEffect(f: File, q: FP.Req)
    requires FP.FileInv(f)
    ensures FP.FileInv(FP.HookUnlink(f, q))
    ensures var v := ViewOf(f);
            Regroups(v.(unlink := v.unlink + multiset{q}), ViewOf(FP.HookUnlink(f, q)), {q})
  {
    FP.HookUnlinkKeepsInv(f, q);
    TryDeleteRegroups(f.(del := f.del + [q]));
  }

  lemma ReleaseAccessEffect(f: File, q: FP.Req)
    requires FP.FileInv(f) && q in f.holders
    ensures FP.FileInv(FP.ReleaseAccess(f, q))
    ensures var v := ViewOf(f);
            Regroups(v.(access := v.access - multiset{q}), ViewOf(FP.ReleaseAccess(f, q)), {})
  {
    FP.ReleaseAccessKeepsInv(f, q);
    var g := f.(accessing := false, holders := f.holders - multiset{q});
    assert ViewOf(g).access == ViewOf(f).access - multiset{q};
    TryAccessRegroups(g);
  }

  lemma ReleaseUnlinkEffect(f: File, q: FP.Req)
    requires FP.FileInv(f) && q in f.unlinking
    ensures FP.FileInv(FP.ReleaseUnlink(f, q))
    ensures var v := ViewOf(f);
            Regroups(v.(unlink := v.unlink - multiset{q}), ViewOf(FP.ReleaseUnlink(f, q)), {})
  {
    FP.ReleaseUnlinkKeepsInv(f, q);
    var g := f.(state := FP.Deleted, unlinking := f.unlinking - multiset{q});
    assert ViewOf(g).unlink == ViewOf(f).unlink - multiset{q};
    TryDeleteRegroups(g);
  }

  lemma UnlockEffect(f: File, worker: Id)
    requires FP.FileInv(f) && worker in f.locks
    ensures FP.FileInv(FP.Unlock(f, worker))
    ensures var v := ViewOf(f);
            Regroups(v.(locks := v.locks - multiset{worker}), ViewOf(FP.Unlock(f, worker)), {})
  {
    FP.UnlockKeepsInv(f, worker);
    ChkEmptyRegroups(f.(locks := f.locks - multiset{worker}));
  }

  // ---- Steps keep the file part of the invariant ----

  /** b differs from a in the entry of q, which belongs to the path and takes a legal phase. */
  ghost predicate Changed(a: Entries, b: Entries, q: FP.Req, path: Path) {
    var r := q.request;
    && r != "" && r in b && b == a[r := b[r]] && b[r].path == path && b[r].worker == q.worker && KindMatches(b[r])
    && (r in a ==> a[r].path == path && a[r].worker == q.worker && a[r].kind == b[r].kind
                   && KindMatches(a[r]) && b[r].phase != LockHeld)
  }

  lemma OtherFileFits(a: Entries, b: Entries, q: FP.Req, path: Path, v: View, p: Path)
    requires Changed(a, b, q, path) && p != path && Fits(a, v, p)
    ensures Fits(b, v, p)
  {
    forall w ensures v.locks[w] == |LocksOf(b, p, w)| {
      assert LocksOf(b, p, w) == LocksOf(a, p, w);
    }
  }

  lemma FileAtFits(s: Store, path: Path)
    requires FilesInv(s)
    ensures FP.FileInv(FileAt(s, path)) && Fits(s.entries, ViewOf(FileAt(s, path)), path)
  {
  }

  /** The locks of a path after the entry of q changed. */
  function LocksAfter(locks: multiset<Id>, a: Entries, b: Entries, q: FP.Req): multiset<Id>
    requires q.request in b
  {
    if b[q.request].phase == LockHeld then locks + multiset{q.worker}
    else if q.request in a && a[q.request].phase == LockHeld then locks - multiset{q.worker}
    else locks
  }

  lemma LocksFit(a: Entries, b: Entries, q: FP.Req, path: Path, v: View, w: Id)
    requires Changed(a, b, q, path) && Fits(a, v, path)
    ensures LocksAfter(v.locks, a, b, q)[w] == |LocksOf(b, path, w)|
  {
    var r := q.request;
    var before, after := LocksOf(a, path, w), LocksOf(b, path, w);
    if w == q.worker && b[r].phase == LockHeld {
      assert after == before + {r};
    } else if w == q.worker && r in a && a[r].phase == LockHeld {
      assert after == before - {r};
    } else {
      assert after == before;
    }
  }

  /** The view of a path after the entry of q changed. */
  function ViewAfter(v: View, a: Entries, b: Entries, q: FP.Req, path: Path): View
    requires q.request in b
  {
    v.(access := v.access[q := Count(Live(b, q, path, KAccess))],
       unlink := v.unlink[q := Count(Live(b, q, path, KUnlink))],
       locks := LocksAfter(v.locks, a, b, q))
  }

  lemma OthersStayLive(a: Entries, b: Entries, q: FP.Req, path: Path, x: FP.Req)
    requires Changed(a, b, q, path) && x != q
    ensures Live(b, x, path, KAccess) == Live(a, x, path, KAccess)
    ensures Live(b, x, path, KUnlink) == Live(a, x, path, KUnlink)
    ensures LiveRequested(b, x, path) == LiveRequested(a, x, path)
  {
  }

  lemma ThisFileFits(a: Entries, b: Entries, q: FP.Req, path: Path, v: View, w: View)
    requires Changed(a, b, q, path) && Fits(a, v, path)
    requires Regroups(ViewAfter(v, a, b, q, path), w, {q})
    requires q in w.queued ==> b[q.request].phase == Requested
    ensures Fits(b, w, path)
  {
    forall x | x != q
      ensures w.access[x] == Count(Live(b, x, path, KAccess))
      ensures w.unlink[x] == Count(Live(b, x, path, KUnlink))
      ensures x in w.queued ==> LiveRequested(b, x, path)
    {
      OthersStayLive(a, b, q, path, x);
    }
    forall x ensures w.locks[x] == |LocksOf(b, path, x)| {
      LocksFit(a, b, q, path, v, x);
    }
  }

  lemma EntriesStayKnown(s: Store, t: Store, q: FP.Req, path: Path)
    requires EntriesKnown(s) && Changed(s.entries, t.entries, q, path)
    requires t.files.Keys == s.files.Keys + {path}
    ensures EntriesKnown(t)
  {
  }

  /** One file takes a step and one entry changes: the file part of the invariant is kept when the
      file's view changes with the entry. */
  lemma FileChanged(s: Store, t: Store, q: FP.Req, path: Path, g: File)
    requires FilesInv(s) && Changed(s.entries, t.entries, q, path)
    requires FP.FileInv(g) && t.files == s.files[path := g]
    requires Regroups(ViewAfter(ViewOf(FileAt(s, path)), s.entries, t.entries, q, path), ViewOf(g), {q})
    requires q in ViewOf(g).queued ==> t.entries[q.request].phase == Requested
    ensures FilesInv(t)
  {
    EntriesStayKnown(s, t, q, path);
    FileAtFits(s, path);
    forall p | p in t.files ensures FP.FileInv(t.files[p]) && Fits(t.entries, ViewOf(t.files[p]), p) {
      if p != path {
        OtherFileFits(s.entries, t.entries, q, path, ViewOf(s.files[p]), p);
      } else {
        ThisFileFits(s.entries, t.entries, q, path, ViewOf(FileAt(s, path)), ViewOf(g));
      }
    }
  }

  /** How the access requests of a view change with the entry of q; unlinks are alike. */
  lemma AccessAfter(a: Entries, b: Entries, q: FP.Req, path: Path, v: View)
    requires Fits(a, v, path)
    ensures v.access[q := Count(Live(b, q, path, KAccess))] ==
            if Live(a, q, path, KAccess) == Live(b, q, path, KAccess) then v.access
            else if Live(b, q, path, KAccess) then v.access + multiset{q} else v.access - multiset{q}
  {
  }

  lemma UnlinkAfter(a: Entries, b: Entries, q: FP.Req, path: Path, v: View)
    requires Fits(a, v, path)
    ensures v.unlink[q := Count(Live(b, q, path, KUnlink))] ==
            if Live(a, q, path, KUnlink) == Live(b, q, path, KUnlink) then v.unlink
            else if Live(b, q, path, KUnlink) then v.unlink + multiset{q} else v.unlink - multiset{q}
  {
  }

  /** Only the view component of the entry's kind changes, and only when the entry becomes live or
      stops being live. */
  lemma ViewChange(a: Entries, b: Entries, q: FP.Req, path: Path, v: View)
    requires Fits(a, v, path) && Changed(a, b, q, path)
    ensures var e := b[q.request];
            var before, after := q.request in a && a[q.request].phase.InHand(), e.phase.InHand();
            ViewAfter(v, a, b, q, path) ==
            if e.kind == KLock then v.(locks := LocksAfter(v.locks, a, b, q))
            else if before == after then v
            else if e.kind == KAccess then
              v.(access := if after then v.access + multiset{q} else v.access - multiset{q})
            else
              v.(unlink := if after then v.unlink + multiset{q} else v.unlink - multiset{q})
    ensures q in v.queued ==> LiveRequested(a, q, path)
  {
    AccessAfter(a, b, q, path, v);
    UnlinkAfter(a, b, q, path, v);
  }

  /** The view that a file should have after a new request. */
  function JoinedView(v: View, q: FP.Req, e: Entry): View {
    if e.phase == LockHeld then v.(locks := v.locks + multiset{q.worker})
    else if !e.phase.InHand() then v
    else if e.kind == KAccess then v.(access := v.access + multiset{q})
    else v.(unlink := v.unlink + multiset{q})
  }

  lemma RequestKeepsFiles(s: Store, t: Store, q: FP.Req, path: Path, g: File)
    requires FilesInv(s) && q.request !in s.entries && Changed(s.entries, t.entries, q, path)
    requires t.files == s.files[path := g] && FP.FileInv(g)
    requires Joins(ViewOf(FileAt(s, path)), ViewOf(g), q, t.entries[q.request])
    requires t.entries[q.request].phase.InHand() ==> t.entries[q.request].phase == Requested
    ensures FilesInv(t)
  {
    FileAtFits(s, path);
    ViewChange(s.entries, t.entries, q, path, ViewOf(FileAt(s, path)));
    FileChanged(s, t, q, path, g);
  }

  lemma RequestChanges(s: Store, kind: Kind, r: string, worker: Id, path: Path)
    requires r !in s.entries && r != ""
    ensures var t := Request(s, kind, r, worker, path);
            && Changed(s.entries, t.entries, FP.Req(worker, r), path)
            && path in t.files && t.files == s.files[path := t.files[path]]
            && (t.entries[r].phase.InHand() ==> t.entries[r].phase == Requested)
  {
  }

  ghost predicate Joins(v: View, w: View, q: FP.Req, e: Entry) {
    Regroups(JoinedView(v, q, e), w, if e.phase.InHand() then {q} else {})
  }

  lemma LockJoins(f: File, q: FP.Req, path: Path)
    requires FP.FileInv(f)
    ensures FP.FileInv(FP.Lock(f, q).0)
    ensures Joins(ViewOf(f), ViewOf(FP.Lock(f, q).0), q,
                  Entry(q.worker, path, KLock, if FP.Lock(f, q).1 then LockHeld else Refused))
  {
    LockEffect(f, q);
    LockedJoins(ViewOf(f), ViewOf(FP.Lock(f, q).0), FP.Lock(f, q).1, q, path);
  }

  lemma LockedJoins(v: View, w: View, ok: bool, q: FP.Req, path: Path)
    requires Regroups(if ok then v.(locks := v.locks + multiset{q.worker}) else v, w, {})
    ensures Joins(v, w, q, Entry(q.worker, path, KLock, if ok then LockHeld else Refused))
  {
  }

  lemma AcceptedJoins(v: View, w: View, ok: bool, q: FP.Req, path: Path)
    requires if ok then Regroups(v.(access := v.access + multiset{q}), w, {q}) else w == v
    ensures Joins(v, w, q, Entry(q.worker, path, KAccess, if ok then Requested else Refused))
  {
  }

  lemma AccessJoins(f: File, q: FP.Req, path: Path)
    requires FP.FileInv(f)
    ensures FP.FileInv(FP.HookAccess(f, q).0)
    ensures Joins(ViewOf(f), ViewOf(FP.HookAccess(f, q).0), q,
                  Entry(q.worker, path, KAccess, if FP.HookAccess(f, q).1 then Requested else Refused))
  {
    HookAccessEffect(f, q);
    var (g, ok) := FP.HookAccess(f, q);
    AcceptedJoins(ViewOf(f), ViewOf(g), ok, q, path);
  }

  lemma UnlinkJoins(f: File, q: FP.Req, path: Path)
    requires FP.FileInv(f)
    ensures FP.FileInv(FP.HookUnlink(f, q))
    ensures Joins(ViewOf(f), ViewOf(FP.HookUnlink(f, q)), q, Entry(q.worker, path, KUnlink, Requested))
  {
    HookUnlinkEffect(f, q);
  }

  lemma RequestJoins(s: Store, kind: Kind, r: string, worker: Id, path: Path)
    requires FP.FileInv(FileAt(s, path))
    ensures var t := Request(s, kind, r, worker, path);
            && FP.FileInv(t.files[path])
            && Joins(ViewOf(FileAt(s, path)), ViewOf(t.files[path]), FP.Req(worker, r), t.entries[r])
  {
    match kind
    case KLock => LockJoins(FileAt(s, path), FP.Req(worker, r), path);
    case KAccess => AccessJoins(FileAt(s, path), FP.Req(worker, r), path);
    case KUnlink => UnlinkJoins(FileAt(s, path), FP.Req(worker, r), path);
  }

  lemma RequestStepKeepsFiles(s: Store, kind: Kind, r: string, worker: Id, path: Path)
    requires FilesInv(s) && r !in s.entries && r != ""
    ensures FilesInv(Request(s, kind, r, worker, path))
  {
    var t := Request(s, kind, r, worker, path);
    FileAtFits(s, path);
    RequestChanges(s, kind, r, worker, path);
    RequestJoins(s, kind, r, worker, path);
    RequestKeepsFiles(s, t, FP.Req(worker, r), path, t.files[path]);
  }

  /** A request that was called back has been granted by its file and waits in no queue. */
  lemma CalledNotQueued(s: Store, r: string)
    requires FilesInv(s) && r in s.entries && s.entries[r].phase.InHand()
    requires s.entries[r].phase == Requested ==> Called(s, r)
    ensures s.entries[r].path in s.files && KindMatches(s.entries[r]) && r != ""
    ensures var f, q := s.files[s.entries[r].path], ReqOf(s, r);
            && q !in ViewOf(f).queued
            && (s.entries[r].kind == KAccess ==> q in f.holders)
            && (s.entries[r].kind == KUnlink ==> q in f.unlinking)
  {
    var e := s.entries[r];
    var f, q := s.files[e.path], ReqOf(s, r);
    FileAtFits(s, e.path);
    OnceInHand(s.entries, q, e.path, ViewOf(f));
    NotTwice(f, q);
  }

  lemma OnceInHand(es: Entries, q: FP.Req, path: Path, v: View)
    requires Fits(es, v, path) && q.request in es
    ensures v.access[q] <= 1 && v.unlink[q] <= 1
    ensures Live(es, q, path, KAccess) ==> v.access[q] == 1
    ensures Live(es, q, path, KUnlink) ==> v.unlink[q] == 1
    ensures q in v.queued ==> es[q.request].phase == Requested
    ensures v.access[q] > 0 ==> es[q.request].kind == KAccess
    ensures v.unlink[q] > 0 ==> es[q.request].kind == KUnlink
  {
  }

  /** What is in hand once is either granted or queued. */
  lemma NotTwice(f: File, q: FP.Req)
    ensures ViewOf(f).access[q] == 1 ==> (q in f.holders <==> q !in f.access)
    ensures ViewOf(f).unlink[q] == 1 ==> (q in f.unlinking <==> q !in f.del)
    ensures q in f.access || q in f.holders ==> ViewOf(f).access[q] > 0
    ensures q in f.del || q in f.unlinking ==> ViewOf(f).unlink[q] > 0
    ensures q in ViewOf(f).queued <==> q in f.access || q in f.del
  {
  }

  /** Acquiring and releasing slots leaves the files alone. */
  lemma PhaseChangeKeepsFiles(s: Store, t: Store, r: string, phase: Phase)
    requires FilesInv(s) && r in s.entries && t.files == s.files
    requires (s.entries[r].phase == Requested && Called(s, r)) || s.entries[r].phase == Acquiring
    requires phase in {Acquiring, Freed} && t.entries == WithPhase(s, r, phase)
    ensures FilesInv(t)
  {
    var path, q := s.entries[r].path, ReqOf(s, r);
    CalledNotQueued(s, r);
    FileAtFits(s, path);
    ViewChange(s.entries, t.entries, q, path, ViewOf(s.files[path]));
    FileChanged(s, t, q, path, s.files[path]);
  }

  lemma CloseView(s: Store, r: string, v: View)
    requires r in s.entries && s.entries[r].phase == Freed && KindMatches(s.entries[r]) && r != ""
    requires Fits(s.entries, v, s.entries[r].path)
    ensures var q := ReqOf(s, r);
            ViewAfter(v, s.entries, Close(s, r).entries, q, s.entries[r].path) ==
            if s.entries[r].kind == KAccess then v.(access := v.access - multiset{q})
            else v.(unlink := v.unlink - multiset{q})
  {
    ViewChange(s.entries, Close(s, r).entries, ReqOf(s, r), s.entries[r].path, v);
  }

  lemma CloseAccessKeepsFiles(s: Store, r: string)
    requires FilesInv(s) && r in s.entries && s.entries[r].phase == Freed && s.entries[r].kind == KAccess
    ensures FilesInv(Close(s, r))
  {
    var path, q := s.entries[r].path, ReqOf(s, r);
    CalledNotQueued(s, r);
    FileAtFits(s, path);
    CloseView(s, r, ViewOf(s.files[path]));
    ReleaseAccessEffect(s.files[path], q);
    FileChanged(s, Close(s, r), q, path, FP.ReleaseAccess(s.files[path], q));
  }

  lemma CloseUnlinkKeepsFiles(s: Store, r: string)
    requires FilesInv(s) && r in s.entries && s.entries[r].phase == Freed && s.entries[r].kind == KUnlink
    ensures FilesInv(Close(s, r))
  {
    var path, q := s.entries[r].path, ReqOf(s, r);
    CalledNotQueued(s, r);
    FileAtFits(s, path);
    CloseView(s, r, ViewOf(s.files[path]));
    ReleaseUnlinkEffect(s.files[path], q);
    FileChanged(s, Close(s, r), q, path, FP.ReleaseUnlink(s.files[path], q));
  }

  lemma HeldLockShows(es: Entries, v: View, path: Path, worker: Id, r: string)
    requires Fits(es, v, path) && r in es && es[r] == Entry(worker, path, KLock, LockHeld)
    ensures worker in v.locks
  {
    assert r in LocksOf(es, path, worker);
  }

  lemma UnlockedFits(s: Store, t: Store, q: FP.Req, path: Path, v: View, g: File)
    requires FilesInv(s) && Changed(s.entries, t.entries, q, path) && v == ViewOf(FileAt(s, path))
    requires q.request in s.entries && s.entries[q.request].kind == KLock && s.entries[q.request].phase == LockHeld
    requires t.entries[q.request] == s.entries[q.request].(phase := Done)
    requires t.files == s.files[path := g] && FP.FileInv(g)
    requires Regroups(v.(locks := v.locks - multiset{q.worker}), ViewOf(g), {})
    ensures FilesInv(t)
  {
    FileAtFits(s, path);
    LockGone(s.entries, t.entries, q, path, v, ViewOf(g));
    FileChanged(s, t, q, path, g);
  }

  /** A held lock's entry is done, and its file has become g. */
  lemma UnlockedAt(s: Store, t: Store, r: string, g: File)
    requires FilesInv(s) && r in s.entries && s.entries[r].phase == LockHeld
    requires t.files == s.files[s.entries[r].path := g] && t.entries == WithPhase(s, r, Done) && FP.FileInv(g)
    requires var v := ViewOf(FileAt(s, s.entries[r].path));
             Regroups(v.(locks := v.locks - multiset{s.entries[r].worker}), ViewOf(g), {})
    ensures FilesInv(t)
  {
    var e := s.entries[r];
    assert KindMatches(e) && r != "";
    UnlockedFits(s, t, ReqOf(s, r), e.path, ViewOf(FileAt(s, e.path)), g);
  }

  lemma UnlockedFile(s: Store, r: string) returns (g: File)
    requires FilesInv(s) && r in s.entries && s.entries[r].phase == LockHeld
    ensures FP.FileInv(g) && Unlock(s, r).files == s.files[s.entries[r].path := g]
    ensures var v := ViewOf(FileAt(s, s.entries[r].path));
            Regroups(v.(locks := v.locks - multiset{s.entries[r].worker}), ViewOf(g), {})
  {
    var e := s.entries[r];
    var f := FileAt(s, e.path);
    assert KindMatches(e);
    FileAtFits(s, e.path);
    HeldLockShows(s.entries, ViewOf(f), e.path, e.worker, r);
    UnlockEffect(f, e.worker);
    g := FP.Unlock(f, e.worker);
  }

  lemma UnlockKeepsFiles(s: Store, r: string)
    requires FilesInv(s) && r in s.entries && s.entries[r].phase == LockHeld
    ensures FilesInv(Unlock(s, r))
  {
    var g := UnlockedFile(s, r);
    UnlockedAt(s, Unlock(s, r), r, g);
  }

  /** A released lock leaves its file's view. */
  lemma LockGone(a: Entries, b: Entries, q: FP.Req, path: Path, v: View, w: View)
    requires Fits(a, v, path) && q.request in a && a[q.request].phase == LockHeld
    requires Changed(a, b, q, path) && b[q.request] == a[q.request].(phase := Done)
    requires a[q.request].kind == KLock && Regroups(v.(locks := v.locks - multiset{q.worker}), w, {})
    ensures Regroups(ViewAfter(v, a, b, q, path), w, {q}) && q !in w.queued
  {
    ViewChange(a, b, q, path, v);
  }

  // ---- Steps keep the pool part of the invariant ----

  /** b and h differ from a and g in what concerns r. */
  ghost predicate OnlyFor(a: Entries, b: Entries, g: set<Option<string>>, h: set<Option<string>>, r: string) {
    && r in b && b == a[r := b[r]]
    && (r in a ==> a[r].worker == b[r].worker)
    && (forall x :: x in a && x != r ==> (Some(x) in g <==> Some(x) in h))
  }

  lemma HoldersOfFollow(a: Entries, b: Entries, g: set<Option<string>>, h: set<Option<string>>, r: string, w: Id)
    requires OnlyFor(a, b, g, h, r)
    ensures HoldingOf(b, h, w) ==
            if Holding(b, h, r) && w == b[r].worker then HoldingOf(a, g, w) + {r} else HoldingOf(a, g, w) - {r}
    ensures r in HoldingOf(a, g, w) <==> Holding(a, g, r) && w == b[r].worker
  {
  }

  lemma HoldersFollow(a: Entries, b: Entries, g: set<Option<string>>, h: set<Option<string>>, r: string)
    requires OnlyFor(a, b, g, h, r)
    ensures HoldingSet(b, h) ==
            if Holding(b, h, r) then HoldingSet(a, g) + {r} else HoldingSet(a, g) - {r}
    ensures r in HoldingSet(a, g) <==> Holding(a, g, r)
  {
  }

  /** The slots held after r alone changed. */
  function HeldAfter(held: multiset<Id>, before: bool, after: bool, worker: Id): multiset<Id> {
    if before == after then held
    else if after then held + multiset{worker} else held - multiset{worker}
  }

  lemma SlotsFollow(a: Entries, b: Entries, g: set<Option<string>>, h: set<Option<string>>,
                    held: multiset<Id>, r: string)
    requires SlotsCounted(a, g, held) && OnlyFor(a, b, g, h, r)
    ensures SlotsCounted(b, h, HeldAfter(held, Holding(a, g, r), Holding(b, h, r), b[r].worker))
  {
    var worker := b[r].worker;
    var after := HeldAfter(held, Holding(a, g, r), Holding(b, h, r), worker);
    HoldersFollow(a, b, g, h, r);
    HoldersOfFollow(a, b, g, h, r, worker);
    assert Holding(a, g, r) ==> held[worker] > 0;
    forall w ensures after[w] == |HoldingOf(b, h, w)| {
      WorkersSlotsFollow(a, b, g, h, held, r, w);
    }
  }

  lemma WorkersSlotsFollow(a: Entries, b: Entries, g: set<Option<string>>, h: set<Option<string>>,
                           held: multiset<Id>, r: string, w: Id)
    requires SlotsCounted(a, g, held) && OnlyFor(a, b, g, h, r)
    ensures HeldAfter(held, Holding(a, g, r), Holding(b, h, r), b[r].worker)[w] == |HoldingOf(b, h, w)|
  {
    HoldersOfFollow(a, b, g, h, r, w);
  }

  lemma TicketsUntouched(a: Entries, b: Entries, p: LP.Pool, r: string)
    requires TicketsKnown(a, p) && r in b && b == a[r := b[r]] && (r in a ==> b[r].phase != Requested)
    ensures TicketsKnown(b, p)
  {
  }

  lemma QueueUntouched(a: Entries, b: Entries, p: LP.Pool, r: string)
    requires QueueLinked(a, p) && r in b && b == a[r := b[r]] && b[r].phase != Acquiring
    requires r in a ==> a[r].phase != Acquiring
    ensures QueueLinked(b, p)
  {
  }

  /** A change of an entry that neither was nor becomes acquiring leaves the pool part alone. */
  lemma PoolUntouched(a: Entries, b: Entries, p: LP.Pool, r: string)
    requires PoolLinked(a, p) && r in b && b == a[r := b[r]] && b[r].phase != Acquiring
    requires r in a ==> a[r].phase != Acquiring && b[r].phase != Requested && a[r].worker == b[r].worker
    ensures PoolLinked(b, p)
  {
    TicketsUntouched(a, b, p, r);
    QueueUntouched(a, b, p, r);
    SlotsFollow(a, b, Granted(p), Granted(p), p.held, r);
  }

  ghost predicate NobodyWaitsInVain(p: LP.Pool) {
    p.waiting != [] ==> !HasRoom(p.limit, p.held)
  }

  lemma AcquireTickets(a: Entries, p: LP.Pool, r: string)
    requires NobodyWaitsInVain(p) && TicketsKnown(a, p) && r in a && a[r].phase == Requested && r != ""
    ensures !LP.Repeats(p, Some(r)) && Some(r) !in Granted(p) && Some(r) !in Waiting(p)
    ensures var t := LP.Ticket(a[r].worker, Some(r), p.issued);
            LP.Line(LP.AcquireSlot(p, a[r].worker, Some(r)).0) == LP.Line(p) + [t]
    ensures TicketsKnown(a[r := a[r].(phase := Acquiring)], LP.AcquireSlot(p, a[r].worker, Some(r)).0)
  {
    var t := LP.Ticket(a[r].worker, Some(r), p.issued);
    var q := LP.AcquireSlot(p, a[r].worker, Some(r)).0;
    assert LP.Line(q) == LP.Line(p) + [t];
    forall u | u in LP.Line(p) ensures u.request != Some(r) {}
    forall u | u in p.waiting ensures u in LP.Line(p) {}
    forall u | u in p.granted ensures u in LP.Line(p) {}
  }

  lemma AcquireKeepsPool(a: Entries, p: LP.Pool, r: string)
    requires PoolLinked(a, p) && r in a && a[r].phase == Requested && r != ""
    ensures PoolLinked(a[r := a[r].(phase := Acquiring)], LP.AcquireSlot(p, a[r].worker, Some(r)).0)
  {
    var b := a[r := a[r].(phase := Acquiring)];
    var q := LP.AcquireSlot(p, a[r].worker, Some(r)).0;
    LP.AcquireKeepsInv(p, a[r].worker, Some(r));
    AcquireTickets(a, p, r);
    AcquireSlots(a, p, r);
    AcquireQueue(a, p, r);
  }

  lemma AcquireNames(a: Entries, p: LP.Pool, r: string)
    requires NobodyWaitsInVain(p) && TicketsKnown(a, p) && r in a && a[r].phase == Requested && r != ""
    ensures var q := LP.AcquireSlot(p, a[r].worker, Some(r)).0;
            if HasRoom(p.limit, p.held)
            then Granted(q) == Granted(p) + {Some(r)} && q.waiting == p.waiting
                 && q.held == p.held + multiset{a[r].worker}
            else Granted(q) == Granted(p) && q.waiting == p.waiting + [LP.Ticket(a[r].worker, Some(r), p.issued)]
                 && q.held == p.held
  {
  }

  lemma AcquireQueue(a: Entries, p: LP.Pool, r: string)
    requires NobodyWaitsInVain(p) && TicketsKnown(a, p) && QueueLinked(a, p) && r in a && a[r].phase == Requested && r != ""
    ensures QueueLinked(a[r := a[r].(phase := Acquiring)], LP.AcquireSlot(p, a[r].worker, Some(r)).0)
  {
    var b := a[r := a[r].(phase := Acquiring)];
    var q := LP.AcquireSlot(p, a[r].worker, Some(r)).0;
    AcquireNames(a, p, r);
    forall t | t in p.waiting ensures t in q.waiting && t.request != Some(r) {}
    if !HasRoom(p.limit, p.held) {
      assert LP.Ticket(a[r].worker, Some(r), p.issued) in q.waiting;
    }
    forall x | x in b && b[x].phase == Acquiring ensures Some(x) in Granted(q) || Some(x) in Waiting(q) {
      if x != r && Some(x) !in Granted(p) {
        var t :| t in p.waiting && t.request == Some(x);
        assert t in q.waiting;
      }
    }
  }

  lemma AcquireSlots(a: Entries, p: LP.Pool, r: string)
    requires NobodyWaitsInVain(p) && TicketsKnown(a, p) && SlotsCounted(a, Granted(p), p.held)
    requires r in a && a[r].phase == Requested && r != ""
    ensures var q := LP.AcquireSlot(p, a[r].worker, Some(r)).0;
            SlotsCounted(a[r := a[r].(phase := Acquiring)], Granted(q), q.held)
  {
    var b := a[r := a[r].(phase := Acquiring)];
    var q := LP.AcquireSlot(p, a[r].worker, Some(r)).0;
    AcquireTickets(a, p, r);
    AcquireNames(a, p, r);
    SlotsFollow(a, b, Granted(p), Granted(q), p.held, r);
  }

  /** A request with a granted ticket has no waiting one. */
  lemma GrantedNotWaiting(es: Entries, p: LP.Pool, n: Option<string>)
    requires LP.PoolInv(p) && TicketsKnown(es, p)
    ensures !(n in Granted(p) && n in Waiting(p))
  {
    if n in Granted(p) && n in Waiting(p) {
      var t :| t in p.granted && t.request == n;
      var u :| u in p.waiting && u.request == n;
      assert t in LP.Line(p) && u in LP.Line(p);
      LP.SamePromise(p, t, u);
    }
  }

  /** Releasing a held slot withdraws nobody: it frees the slot and serves the head of the queue. */
  lemma ReleaseHandsOver(a: Entries, p: LP.Pool, r: string)
    requires PoolLinked(a, p) && Holding(a, Granted(p), r)
    ensures Some(r) !in Waiting(p) && a[r].worker in p.held
    ensures LP.ReleaseSlot(p, a[r].worker, r) == (LP.HandOver(p, a[r].worker, r), true)
  {
    var w := a[r].worker;
    GrantedNotWaiting(a, p, Some(r));
    var kept := Keep(p.waiting, LP.Matching(w, r));
    if kept != [] {
      KeepMembers(p.waiting, LP.Matching(w, r), kept[0]);
      LP.KeptMatch(p.waiting, w, r, kept[0]);
    }
    assert r in HoldingOf(a, Granted(p), w);
  }

  /** What a hand-over does: the head of the queue, if any, gets the slot. */
  ghost predicate HandedOver(p: LP.Pool, q: LP.Pool, w: Id) {
    if p.waiting == [] then
      q.waiting == [] && q.held == p.held - multiset{w} && Granted(q) == Granted(p)
    else
      && q.waiting == p.waiting[1..]
      && q.held == p.held - multiset{w} + multiset{p.waiting[0].worker}
      && Granted(q) == Granted(p) + {p.waiting[0].request}
  }

  lemma HandOverEffect(p: LP.Pool, w: Id, r: string)
    requires LP.PoolInv(p) && w in p.held
    ensures HandedOver(p, LP.HandOver(p, w, r), w)
  {
  }

  lemma ReleaseSlots(a: Entries, p: LP.Pool, q: LP.Pool, r: string)
    requires SlotsCounted(a, Granted(p), p.held) && Holding(a, Granted(p), r) && HandedOver(p, q, a[r].worker)
    requires p.waiting != [] ==>
               var t := p.waiting[0];
               && t.request.Some? && t.request.value in a && t.request.value != r && t.request !in Granted(p)
               && a[t.request.value].phase == Acquiring && a[t.request.value].worker == t.worker
    ensures SlotsCounted(a[r := a[r].(phase := Freed)], Granted(q), q.held)
  {
    var b := a[r := a[r].(phase := Freed)];
    SlotsFollow(a, b, Granted(p), Granted(p), p.held, r);
    if p.waiting != [] {
      var t := p.waiting[0];
      SlotsFollow(b, b, Granted(p), Granted(q), p.held - multiset{a[r].worker}, t.request.value);
    }
  }

  lemma ReleaseQueue(a: Entries, p: LP.Pool, q: LP.Pool, r: string)
    requires QueueLinked(a, p) && r in a && HandedOver(p, q, a[r].worker) && Some(r) !in Waiting(p)
    ensures QueueLinked(a[r := a[r].(phase := Freed)], q)
  {
    var b := a[r := a[r].(phase := Freed)];
    forall t | t in q.waiting ensures t in p.waiting && t.request != Some(r) {
      assert t.request in Waiting(p);
    }
    forall x | x in b && b[x].phase == Acquiring ensures Some(x) in Granted(q) || Some(x) in Waiting(q) {
      if Some(x) !in Granted(q) {
        var t :| t in p.waiting && t.request == Some(x);
        assert t != p.waiting[0];
        assert t in p.waiting[1..];
      }
    }
  }

  lemma ReleaseTickets(a: Entries, p: LP.Pool, q: LP.Pool, r: string)
    requires TicketsKnown(a, p) && r in a && LP.Line(q) == LP.Line(p) && q.requests <= p.requests
    ensures TicketsKnown(a[r := a[r].(phase := Freed)], q)
  {
  }

  lemma HeadFacts(a: Entries, p: LP.Pool, r: string)
    requires PoolLinked(a, p) && Some(r) !in Waiting(p) && p.waiting != []
    ensures var t := p.waiting[0];
            && t.request.Some? && t.request.value in a && t.request.value != r && t.request !in Granted(p)
            && a[t.request.value].phase == Acquiring && a[t.request.value].worker == t.worker
  {
    assert p.waiting[0] in p.waiting;
    assert p.waiting[0].request in Waiting(p);
    GrantedNotWaiting(a, p, p.waiting[0].request);
  }

  lemma ReleaseKeepsPool(a: Entries, p: LP.Pool, r: string)
    requires PoolLinked(a, p) && Holding(a, Granted(p), r)
    ensures PoolLinked(a[r := a[r].(phase := Freed)], LP.ReleaseSlot(p, a[r].worker, r).0)
  {
    var q := LP.HandOver(p, a[r].worker, r);
    ReleaseHandsOver(a, p, r);
    HandOverEffect(p, a[r].worker, r);
    LP.HandOverKeepsInv(p, a[r].worker, r);
    if p.waiting != [] {
      HeadFacts(a, p, r);
    }
    ReleaseSlots(a, p, q, r);
    ReleaseQueue(a, p, q, r);
    ReleaseTickets(a, p, q, r);
  }

  // ---- Every reachable store ----

  lemma StepKeepsInv(s: Store, e: Event)
    requires StoreInv(s) && Enabled(s, e)
    ensures StoreInv(Step(s, e))
  {
    match e
    case ERequest(kind, r, w, p) => RequestKeepsInv(s, kind, r, w, p);
    case EAcquire(r) =>
      PhaseChangeKeepsFiles(s, Acquire(s, r), r, Acquiring);
      AcquireKeepsPool(s.entries, s.pool, r);
    case ERelease(r) =>
      PhaseChangeKeepsFiles(s, Release(s, r), r, Freed);
      ReleaseKeepsPool(s.entries, s.pool, r);
    case EClose(r) => CloseKeepsInv(s, r);
    case EUnlock(r) =>
      UnlockKeepsFiles(s, r);
      PoolUntouched(s.entries, Unlock(s, r).entries, s.pool, r);
  }

  lemma RequestKeepsPool(s: Store, kind: Kind, r: string, worker: Id, path: Path)
    requires PoolLinked(s.entries, s.pool) && r !in s.entries
    ensures PoolLinked(Request(s, kind, r, worker, path).entries, s.pool)
  {
    PoolUntouched(s.entries, Request(s, kind, r, worker, path).entries, s.pool, r);
  }

  lemma RequestKeepsInv(s: Store, kind: Kind, r: string, worker: Id, path: Path)
    requires StoreInv(s) && r !in s.entries && r != ""
    ensures StoreInv(Request(s, kind, r, worker, path))
  {
    RequestKeepsPool(s, kind, r, worker, path);
    RequestStepKeepsFiles(s, kind, r, worker, path);
  }

  lemma CloseKeepsInv(s: Store, r: string)
    requires StoreInv(s) && r in s.entries && s.entries[r].phase == Freed
    ensures StoreInv(Close(s, r))
  {
    if s.entries[r].kind == KAccess {
      CloseAccessKeepsFiles(s, r);
    } else {
      CloseUnlinkKeepsFiles(s, r);
    }
    PoolUntouched(s.entries, Close(s, r).entries, s.pool, r);
  }

  lemma NewStoreInv(threadCount: int)
    ensures StoreInv(NewStore(threadCount))
  {
  }

  lemma StepKeepsLimit(s: Store, e: Event)
    requires Enabled(s, e)
    ensures Step(s, e).pool.limit == s.pool.limit
  {
  }

  lemma {:induction false} ReachesKeepsInv(s: Store, es: seq<Event>, t: Store)
    requires StoreInv(s) && Reaches(s, es, t)
    ensures StoreInv(t) && t.pool.limit == s.pool.limit
    decreases |es|
  {
    if es != [] {
      StepKeepsInv(s, es[0]);
      StepKeepsLimit(s, es[0]);
      ReachesKeepsInv(Step(s, es[0]), es[1..], t);
    }
  }

  /** A request that its file has called back and whose closure has not run. */
  predicate InUse(s: Store, r: string) {
    r in s.entries && (Called(s, r) || s.entries[r].phase == Acquiring || s.entries[r].phase == Freed)
  }

  predicate AccessInUse(s: Store, r: string, path: Path) {
    InUse(s, r) && s.entries[r].path == path && s.entries[r].kind == KAccess
  }

  lemma OnlyHolder(f: File, q: FP.Req, x: FP.Req)
    requires FP.FileInv(f) && q in f.holders && x in f.holders
    ensures q == x
  {
    var rest := f.holders - multiset{q};
    assert |rest| == 0;
    assert q != x ==> x in rest;
  }

  /** The slots taken are exactly the requests that were sent OK and not released, and there are at
      most as many as the pool allows: any number for 0, none for a negative limit. */
  lemma SlotsAreCounted(s: Store)
    requires StoreInv(s)
    ensures |s.pool.held| == |HoldingSet(s.entries, Granted(s.pool))|
    ensures s.pool.limit > 0 ==> |s.pool.held| <= s.pool.limit
    ensures s.pool.limit < 0 ==> |s.pool.held| == 0
  {
  }

  lemma OneAccessPerFile(s: Store, path: Path, r: string, x: string)
    requires StoreInv(s) && AccessInUse(s, r, path) && AccessInUse(s, x, path)
    ensures r == x
  {
    CalledNotQueued(s, r);
    CalledNotQueued(s, x);
    OnlyHolder(s.files[path], ReqOf(s, r), ReqOf(s, x));
  }

  lemma DeletedUnlocked(s: Store, path: Path)
    requires StoreInv(s) && path in s.files && s.files[path].unlinkGrants != []
    ensures s.files[path].locks == multiset{}
  {
    assert FP.FileInv(s.files[path]);
  }

  /** Safety in every interleaving, for any number of files, workers and requests: the slots taken
      are exactly the requests that were sent OK and not released, there are never more than a
      positive `threadCount` and none for a negative one, each file serves at most one access, and a
      file with a granted unlink has no lock. */
  lemma {:induction false} StoreSafety(threadCount: int, es: seq<Event>, s: Store)
    requires Reaches(NewStore(threadCount), es, s)
    ensures |s.pool.held| == |HoldingSet(s.entries, Granted(s.pool))|
    ensures threadCount > 0 ==> |s.pool.held| <= threadCount
    ensures threadCount < 0 ==> |s.pool.held| == 0
    ensures forall p, r, x :: AccessInUse(s, r, p) && AccessInUse(s, x, p) ==> r == x
    ensures forall p :: p in s.files && s.files[p].unlinkGrants != [] ==> s.files[p].locks == multiset{}
  {
    NewStoreInv(threadCount);
    ReachesKeepsInv(NewStore(threadCount), es, s);
    SlotsAreCounted(s);
    forall p, r, x | AccessInUse(s, r, p) && AccessInUse(s, x, p) ensures r == x {
      OneAccessPerFile(s, p, r, x);
    }
    forall p | p in s.files && s.files[p].unlinkGrants != [] ensures s.files[p].locks == multiset{} {
      DeletedUnlocked(s, p);
    }
  }

  lemma SomeHolder(f: File) returns (q: FP.Req)
    requires FP.FileInv(f) && f.access != [] && f.unlinkGrants == []
    ensures q in f.holders
  {
    assert |f.holders| == 1;
    q :| q in f.holders;
  }

  lemma HolderIsInUse(s: Store, path: Path, q: FP.Req)
    requires FilesInv(s) && path in s.files && q in s.files[path].holders
    ensures AccessInUse(s, q.request, path)
  {
    var v := ViewOf(s.files[path]);
    assert Fits(s.entries, v, path) && v.access[q] > 0;
    assert Live(s.entries, q, path, KAccess) && ReqOf(s, q.request) == q;
  }

  lemma UnlinkerIsInUse(s: Store, path: Path, q: FP.Req)
    requires FilesInv(s) && path in s.files && q in s.files[path].unlinking
    ensures InUse(s, q.request) && s.entries[q.request].path == path
  {
    var v := ViewOf(s.files[path]);
    assert Fits(s.entries, v, path) && v.unlink[q] > 0;
    assert Live(s.entries, q, path, KUnlink) && ReqOf(s, q.request) == q;
  }

  lemma LockIsHeldBySomeone(s: Store, path: Path, worker: Id) returns (r: string)
    requires FilesInv(s) && path in s.files && worker in s.files[path].locks
    ensures r in s.entries && s.entries[r] == Entry(worker, path, KLock, LockHeld)
  {
    assert Fits(s.entries, ViewOf(s.files[path]), path);
    assert |LocksOf(s.entries, path, worker)| > 0;
    r :| r in LocksOf(s.entries, path, worker);
  }

  /** In every interleaving, whoever waits for access to a file that has not begun to be deleted waits
      for an access that the file has called back. */
  lemma {:induction false} WaitingForAnAccess(threadCount: int, es: seq<Event>, s: Store, path: Path)
    requires Reaches(NewStore(threadCount), es, s)
    requires path in s.files && s.files[path].access != [] && s.files[path].unlinkGrants == []
    ensures exists r :: AccessInUse(s, r, path)
  {
    NewStoreInv(threadCount);
    ReachesKeepsInv(NewStore(threadCount), es, s);
    var q := SomeHolder(s.files[path]);
    HolderIsInUse(s, path, q);
  }

  /** The request holds a lock of the file, or the file has called it back. */
  predicate Blocks(s: Store, r: string, path: Path) {
    r in s.entries && s.entries[r].path == path && (s.entries[r].phase == LockHeld || InUse(s, r))
  }

  /** Whoever waits to unlink a file waits for a lock, an access or another unlink of it. */
  lemma {:induction false} WaitingToUnlink(threadCount: int, es: seq<Event>, s: Store, path: Path)
    requires Reaches(NewStore(threadCount), es, s)
    requires path in s.files && s.files[path].del != []
    ensures exists r :: Blocks(s, r, path)
  {
    NewStoreInv(threadCount);
    ReachesKeepsInv(NewStore(threadCount), es, s);
    var f := s.files[path];
    assert FP.FileInv(f);
    if f.locks != multiset{} {
      var w :| w in f.locks;
      var r := LockIsHeldBySomeone(s, path, w);
      assert Blocks(s, r, path);
    } else if f.unlinking != multiset{} {
      var q :| q in f.unlinking;
      UnlinkerIsInUse(s, path, q);
      assert Blocks(s, q.request, path);
    } else {
      var q :| q in f.holders;
      HolderIsInUse(s, path, q);
      assert Blocks(s, q.request, path);
    }
  }

  // ---- Progress ----

  /** An access request that still waited when its file's first unlink was granted. */
  predicate Stranded(s: Store, r: string) {
    && r in s.entries && s.entries[r].phase == Requested && s.entries[r].kind == KAccess
    && s.entries[r].path in s.files
    && ReqOf(s, r) in s.files[s.entries[r].path].access
    && s.files[s.entries[r].path].unlinkGrants != []
  }

  predicate Settled(s: Store, r: string)
    requires r in s.entries
  {
    s.entries[r].phase == Done || s.entries[r].phase == Refused
  }

  /** No continuation is due and nobody holds anything. */
  ghost predicate Quiet(s: Store) {
    forall e :: Enabled(s, e) ==> e.ERequest?
  }

  lemma QuietPhases(s: Store, r: string)
    requires Quiet(s) && r in s.entries
    ensures !Called(s, r) && !Holding(s.entries, Granted(s.pool), r)
    ensures s.entries[r].phase != Freed && s.entries[r].phase != LockHeld
  {
    assert !Enabled(s, EAcquire(r)) && !Enabled(s, ERelease(r));
    assert !Enabled(s, EClose(r)) && !Enabled(s, EUnlock(r));
  }

  ghost predicate NobodyAcquires(es: Entries) {
    forall r :: r in es ==> es[r].phase != Acquiring
  }

  /** With nobody holding a slot, nobody waits for one, unless the pool grants nothing. */
  lemma QuietPool(s: Store)
    requires PoolLinked(s.entries, s.pool) && Quiet(s) && s.pool.limit >= 0
    ensures NobodyAcquires(s.entries)
  {
    forall r ensures r !in HoldingSet(s.entries, Granted(s.pool)) {
      if r in s.entries { QuietPhases(s, r); }
    }
    assert HoldingSet(s.entries, Granted(s.pool)) == {};
    assert HasRoom(s.pool.limit, s.pool.held);
    assert s.pool.waiting == [];
    forall r | r in s.entries ensures s.entries[r].phase != Acquiring {
      QuietPhases(s, r);
    }
  }

  /** A file whose granted requests have all been closed and whose locks are gone has no waiting
      unlink, and no waiting access either unless an unlink was granted. */
  lemma QuietFile(s: Store, path: Path)
    requires StoreInv(s) && Quiet(s) && NobodyAcquires(s.entries) && path in s.files
    ensures s.files[path].del == [] && (s.files[path].access != [] ==> s.files[path].unlinkGrants != [])
    ensures s.files[path].holders == multiset{} && s.files[path].unlinking == multiset{}
  {
    var f := s.files[path];
    var v := ViewOf(f);
    assert FP.FileInv(f) && Fits(s.entries, v, path);
    forall q ensures q !in f.holders && q !in f.unlinking {
      if q in f.holders { HolderIsInUse(s, path, q); QuietPhases(s, q.request); }
      if q in f.unlinking { UnlinkerIsInUse(s, path, q); QuietPhases(s, q.request); }
    }
    forall w ensures w !in f.locks {
      forall r ensures r !in LocksOf(s.entries, path, w) {
        if r in s.entries { QuietPhases(s, r); }
      }
      assert LocksOf(s.entries, path, w) == {};
    }
    assert f.holders == multiset{} && f.unlinking == multiset{} && f.locks == multiset{};
  }

  /** No deadlock: when only new requests are possible and nobody waits for a slot, every request has
      been settled, except accesses stranded by the deletion of their file. */
  lemma {:induction false} QuietMeansSettled(s: Store, r: string)
    requires StoreInv(s) && Quiet(s) && NobodyAcquires(s.entries) && r in s.entries
    ensures Settled(s, r) || Stranded(s, r)
  {
    QuietPhases(s, r);
    if s.entries[r].phase == Requested {
      var e, q := s.entries[r], ReqOf(s, r);
      var f := s.files[e.path];
      var v := ViewOf(f);
      QuietFile(s, e.path);
      assert Fits(s.entries, v, e.path) && KindMatches(e);
      assert v.access[q] == Count(Live(s.entries, q, e.path, KAccess));
      assert v.unlink[q] == Count(Live(s.entries, q, e.path, KUnlink));
      assert e.kind == KAccess ==> multiset(f.access)[q] > 0;
    }
  }

  function InPhase(es: Entries, phase: Phase): set<string> {
    set r | r in es && es[r].phase == phase
  }

  /** How many steps a request in this phase can still take. */
  function Ahead(phase: Phase): nat {
    match phase
    case Requested => 3
    case Acquiring => 2
    case Freed => 1
    case LockHeld => 1
    case _ => 0
  }

  /** How many steps the unsettled requests can still take. */
  function Work(es: Entries): nat {
    3 * |InPhase(es, Requested)| + 2 * |InPhase(es, Acquiring)| + |InPhase(es, Freed)| + |InPhase(es, LockHeld)|
  }

  lemma PhaseMoves(a: Entries, b: Entries, r: string, phase: Phase)
    requires r in a && r in b && b == a[r := a[r].(phase := b[r].phase)] && a[r].phase != b[r].phase
    ensures |InPhase(b, phase)| ==
            |InPhase(a, phase)| + (if phase == b[r].phase then 1 else 0) - (if phase == a[r].phase then 1 else 0)
  {
    assert InPhase(b, phase) == if phase == b[r].phase then InPhase(a, phase) + {r} else InPhase(a, phase) - {r};
  }

  lemma WorkMoves(a: Entries, b: Entries, r: string)
    requires r in a && r in b && b == a[r := a[r].(phase := b[r].phase)] && a[r].phase != b[r].phase
    ensures Work(b) == Work(a) + Ahead(b[r].phase) - Ahead(a[r].phase)
  {
    PhaseMoves(a, b, r, Requested);
    PhaseMoves(a, b, r, Acquiring);
    PhaseMoves(a, b, r, Freed);
    PhaseMoves(a, b, r, LockHeld);
  }

  lemma StepDoesWork(s: Store, e: Event)
    requires Enabled(s, e) && !e.ERequest?
    ensures Work(Step(s, e).entries) == Work(s.entries) - 1
  {
    WorkMoves(s.entries, Step(s, e).entries, e.id);
  }

  lemma {:induction false} DrainCounts(s: Store, es: seq<Event>, t: Store)
    requires Reaches(s, es, t) && forall e :: e in es ==> !e.ERequest?
    ensures |es| + Work(t.entries) == Work(s.entries)
    decreases |es|
  {
    if es != [] {
      assert es[0] in es;
      assert forall e :: e in es[1..] ==> e in es;
      StepDoesWork(s, es[0]);
      DrainCounts(Step(s, es[0]), es[1..], t);
    }
  }

  /** Every request is settled or stranded, and not both. */
  ghost predicate SettledOrStranded(s: Store) {
    forall r :: r in s.entries ==> (Settled(s, r) <==> !Stranded(s, r))
  }

  lemma QuietStore(s: Store)
    requires StoreInv(s) && Quiet(s)
    ensures SettledOrStranded(s) <==> NobodyAcquires(s.entries)
    ensures s.pool.limit >= 0 ==> NobodyAcquires(s.entries)
  {
    if s.pool.limit >= 0 {
      QuietPool(s);
    }
    if NobodyAcquires(s.entries) {
      forall r | r in s.entries ensures Settled(s, r) <==> !Stranded(s, r) {
        QuietMeansSettled(s, r);
      }
    }
  }

  /** Every reachable store drains: without new requests a run has at most Work steps whatever the
      order, and a run that cannot be continued has settled every request but the stranded accesses. With
      a negative `threadCount`, which grants no slot, it has done so exactly when nobody asks for one. */
  lemma {:induction false} StoreDrains(threadCount: int, before: seq<Event>, s: Store, es: seq<Event>, t: Store)
    requires Reaches(NewStore(threadCount), before, s)
    requires Reaches(s, es, t) && forall e :: e in es ==> !e.ERequest?
    ensures |es| <= Work(s.entries)
    ensures Quiet(t) && threadCount >= 0 ==> SettledOrStranded(t)
    ensures Quiet(t) ==> (SettledOrStranded(t) <==> NobodyAcquires(t.entries))
  {
    NewStoreInv(threadCount);
    ReachesKeepsInv(NewStore(threadCount), before, s);
    ReachesKeepsInv(s, es, t);
    DrainCounts(s, es, t);
    if Quiet(t) {
      QuietStore(t);
    }
  }

  /** A file with a granted unlink goes on having one, and its waiting accesses go on waiting. */
  ghost predicate StaysDeleted(f: File, g: File) {
    f.unlinkGrants != [] ==> g.unlinkGrants != [] && g.access == f.access
  }

  lemma RequestStaysDeleted(f: File, q: FP.Req)
    requires FP.FileInv(f)
    ensures StaysDeleted(f, FP.Lock(f, q).0)
    ensures StaysDeleted(f, FP.HookAccess(f, q).0)
    ensures StaysDeleted(f, FP.HookUnlink(f, q))
  {
  }

  lemma ReleaseStaysDeleted(f: File, q: FP.Req)
    requires FP.FileInv(f)
    ensures StaysDeleted(f, FP.ReleaseAccess(f, q))
    ensures StaysDeleted(f, FP.ReleaseUnlink(f, q))
  {
  }

  lemma UnlockStaysDeleted(s: Store, r: string)
    requires FilesInv(s) && r in s.entries && s.entries[r].phase == LockHeld
    ensures FileAt(s, s.entries[r].path).unlinkGrants == []
  {
    var e := s.entries[r];
    FileAtFits(s, e.path);
    assert KindMatches(e);
    assert r in LocksOf(s.entries, e.path, e.worker);
    assert e.worker in FileAt(s, e.path).locks;
  }

  lemma RequestStepStaysDeleted(s: Store, kind: Kind, r: string, w: Id, p: Path, path: Path)
    requires path in s.files && FP.FileInv(s.files[path])
    ensures StaysDeleted(s.files[path], Request(s, kind, r, w, p).files[path])
  {
    RequestStaysDeleted(s.files[path], FP.Req(w, r));
  }

  lemma CloseStepStaysDeleted(s: Store, r: string, path: Path)
    requires path in s.files && FP.FileInv(s.files[path]) && r in s.entries
    ensures StaysDeleted(s.files[path], Close(s, r).files[path])
  {
    ReleaseStaysDeleted(s.files[path], ReqOf(s, r));
  }

  lemma UnlockStepStaysDeleted(s: Store, r: string, path: Path)
    requires FilesInv(s) && r in s.entries && s.entries[r].phase == LockHeld && path in s.files
    ensures path in Unlock(s, r).files && StaysDeleted(s.files[path], Unlock(s, r).files[path])
  {
    UnlockStaysDeleted(s, r);
  }

  lemma StepStaysDeleted(s: Store, e: Event, path: Path)
    requires FilesInv(s) && Enabled(s, e) && path in s.files
    ensures path in Step(s, e).files && StaysDeleted(s.files[path], Step(s, e).files[path])
  {
    FileAtFits(s, path);
    match e
    case ERequest(kind, r, w, p) => RequestStepStaysDeleted(s, kind, r, w, p, path);
    case EAcquire(r) =>
    case ERelease(r) =>
    case EClose(r) => CloseStepStaysDeleted(s, r, path);
    case EUnlock(r) => UnlockStepStaysDeleted(s, r, path);
  }

  /** A stranded access is never granted, refused or answered, whatever happens later. */
  lemma {:induction false} StrandedForEver(s: Store, es: seq<Event>, t: Store, r: string)
    requires StoreInv(s) && Stranded(s, r) && Reaches(s, es, t)
    ensures Stranded(t, r)
    decreases |es|
  {
    if es != [] {
      StrandedStep(s, es[0], r);
      StepKeepsInv(s, es[0]);
      StrandedForEver(Step(s, es[0]), es[1..], t, r);
    }
  }

  lemma EntryStays(s: Store, e: Event, r: string)
    requires Enabled(s, e) && r in s.entries && s.entries[r].phase == Requested && !Called(s, r)
    ensures r in Step(s, e).entries && Step(s, e).entries[r] == s.entries[r]
  {
  }

  lemma StrandedStep(s: Store, e: Event, r: string)
    requires StoreInv(s) && Stranded(s, r) && Enabled(s, e)
    ensures Stranded(Step(s, e), r)
  {
    StepStaysDeleted(s, e, s.entries[r].path);
    StrandedNotCalled(s, r);
    EntryStays(s, e, r);
  }

  lemma StrandedNotCalled(s: Store, r: string)
    requires StoreInv(s) && Stranded(s, r)
    ensures !Called(s, r)
  {
    assert ReqOf(s, r) in ViewOf(s.files[s.entries[r].path]).queued;
    if Called(s, r) {
      CalledNotQueued(s, r);
    }
  }

  /** A run that strands an access: it waits behind another one when an unlink of the file is granted. */
  lemma WaitingAccessCanBeStranded(w: Id, path: Path)
    ensures exists t :: Reaches(NewStore(1), StrandingRun(w, path), t) && Stranded(t, "b")
  {
    var s1 := Step(NewStore(1), ERequest(KAccess, "a", w, path));
    assert s1.files[path].accessing && s1.files[path].access == [];
    var s2 := Step(s1, ERequest(KAccess, "b", w, path));
    assert s2.files[path].access == [FP.Req(w, "b")] && s2.files[path].state == FP.Free;
    var s3 := Step(s2, ERequest(KUnlink, "u", w, path));
    assert s3.files[path].access == [FP.Req(w, "b")] && s3.files[path].unlinkGrants == [FP.Req(w, "u")];
    var es := StrandingRun(w, path);
    assert es[1..][1..][1..] == [];
    assert Reaches(s2, es[1..][1..], s3);
    assert Reaches(s1, es[1..], s3);
    assert Reaches(NewStore(1), es, s3) && Stranded(s3, "b");
  }

  function StrandingRun(w: Id, path: Path): seq<Event> {
    [ERequest(KAccess, "a", w, path), ERequest(KAccess, "b", w, path), ERequest(KUnlink, "u", w, path)]
  }
}
