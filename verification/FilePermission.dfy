/** core/fs-store/src/utils/FilePermissionResolver.ts as a transition system.

    A callback passed to the resolver is the event "granted"; the release closure that the callback
    receives is a separate step. `holders` and `unlinking` are the grants whose closure has not been
    run, and the three grant lists are the history. */
module FilePermissions {
  import opened Common
  import opened MultiLocks

  datatype Req = Req(worker: Id, request: string)

  datatype ActionState = Locked | Access | Free | Deleting | Deleted {
    /** The value of the source's enum, whose order decides what may be deleted. */
    function Rank(): nat {
      match this
      case Locked => 0
      case Access => 1
      case Free => 2
      case Deleting => 3
      case Deleted => 4
    }
  }

  datatype File = File(
    locks: multiset<Id>,
    access: seq<Req>,
    accessing: bool,
    del: seq<Req>,
    state: ActionState,
    holders: multiset<Req>,
    unlinking: multiset<Req>,
    lockGrants: seq<Req>,
    accessGrants: seq<Req>,
    unlinkGrants: seq<Req>)
  {
    predicate CanBeDeleted() { state.Rank() >= Free.Rank() }

    predicate IsDeleted() { state.Rank() > Free.Rank() }
  }

  function NewFile(): File {
    File(multiset{}, [], false, [], Free, multiset{}, multiset{}, [], [], [])
  }

  function OfWorker(worker: Id): (Req, nat) -> bool {
    (q: Req, i: nat) => q.worker == worker
  }

  /** A queue after one worker's requests, or all of them for the empty id, have been cleaned. */
  function CleanedQueue(queue: seq<Req>, worker: Id): seq<Req> {
    if worker == "" then [] else Keep(queue, Not(OfWorker(worker)))
  }

  // ---- The private steps ----

  function TryDelete(f: File): File {
    if !f.CanBeDeleted() || f.del == [] then f
    else f.(del := f.del[1..],
            state := if f.IsDeleted() then f.state else Deleting,
            unlinking := f.unlinking + multiset{f.del[0]},
            unlinkGrants := f.unlinkGrants + [f.del[0]])
  }

  function ChkEmpty(f: File): File {
    if f.locks == multiset{} && f.access == [] then
      if !f.accessing then TryDelete(f.(state := Free)) else f.(state := Access)
    else if f.locks != multiset{} then f.(state := Locked)
    else f
  }

  function TryAccess(f: File): (File, bool) {
    if f.IsDeleted() then (f, false)
    else if f.accessing then (f, true)
    else if f.access == [] then (ChkEmpty(f), true)
    else (f.(access := f.access[1..],
             accessing := true,
             holders := f.holders + multiset{f.access[0]},
             accessGrants := f.accessGrants + [f.access[0]]), true)
  }

  // ---- The public steps ----

  function Lock(f: File, q: Req): (File, bool) {
    if f.IsDeleted() then (f, false)
    else (f.(locks := f.locks + multiset{q.worker}, state := Locked, lockGrants := f.lockGrants + [q]), true)
  }

  function Unlock(f: File, worker: Id): File {
    ChkEmpty(f.(locks := f.locks - multiset{worker}))
  }

  function CleanLock(f: File, worker: Id): File {
    ChkEmpty(f.(locks := Cleaned(f.locks, worker)))
  }

  function HookAccess(f: File, q: Req): (File, bool) {
    if f.IsDeleted() then (f, false)
    else TryAccess(f.(access := f.access + [q]))
  }

  function ReleaseAccess(f: File, q: Req): File {
    TryAccess(f.(accessing := false, holders := f.holders - multiset{q})).0
  }

  function CleanAccess(f: File, worker: Id): File {
    f.(access := CleanedQueue(f.access, worker))
  }

  function HookUnlink(f: File, q: Req): File {
    TryDelete(f.(del := f.del + [q]))
  }

  function ReleaseUnlink(f: File, q: Req): File {
    TryDelete(f.(state := Deleted, unlinking := f.unlinking - multiset{q}))
  }

  function CleanUnlink(f: File, worker: Id): File {
    f.(del := CleanedQueue(f.del, worker))
  }

  datatype Event =
    | ELock(req: Req)
    | EUnlock(worker: Id)
    | ECleanLock(worker: Id)
    | EHookAccess(req: Req)
    | EReleaseAccess(req: Req)
    | ECleanAccess(worker: Id)
    | EHookUnlink(req: Req)
    | EReleaseUnlink(req: Req)
    | ECleanUnlink(worker: Id)

  function Step(f: File, e: Event): File {
    match e
    case ELock(q) => Lock(f, q).0
    case EUnlock(w) => Unlock(f, w)
    case ECleanLock(w) => CleanLock(f, w)
    case EHookAccess(q) => HookAccess(f, q).0
    case EReleaseAccess(q) => ReleaseAccess(f, q)
    case ECleanAccess(w) => CleanAccess(f, w)
    case EHookUnlink(q) => HookUnlink(f, q)
    case EReleaseUnlink(q) => ReleaseUnlink(f, q)
    case ECleanUnlink(w) => CleanUnlink(f, w)
  }

  function Run(f: File, es: seq<Event>): File {
    if es == [] then f else Step(Run(f, es[..|es| - 1]), es[|es| - 1])
  }

  /** What the resolver expects of its clients: release only what is held, and no lock cleaning
      once an unlink has been granted. */
  predicate Legal(f: File, e: Event) {
    match e
    case EUnlock(w) => w in f.locks
    case ECleanLock(_) => f.unlinkGrants == []
    case EReleaseAccess(q) => q in f.holders
    case EReleaseUnlink(q) => q in f.unlinking
    case _ => true
  }

  predicate LegalRun(f: File, es: seq<Event>) {
    es == [] || (LegalRun(f, es[..|es| - 1]) && Legal(Run(f, es[..|es| - 1]), es[|es| - 1]))
  }

  // ---- The invariant of every legal run ----

  ghost predicate FileInv(f: File) {
    // a held lock is visible in the state
    && (f.locks != multiset{} ==> f.state == Locked)
    // access is exclusive
    && |f.holders| == (if f.accessing then 1 else 0)
    // the state is above `free` exactly from the first unlink grant on
    && (f.IsDeleted() <==> f.unlinkGrants != [])
    && (f.unlinkGrants == [] ==> f.unlinking == multiset{})
    // nobody waits without somebody to wait for
    && (f.access != [] && f.unlinkGrants == [] ==> f.accessing)
    && (!f.CanBeDeleted() ==> f.locks != multiset{} || f.accessing)
    && (f.del != [] ==> !f.CanBeDeleted() || f.unlinking != multiset{})
  }

  lemma MultisetNonEmpty<T>(m: multiset<T>, x: T)
    requires x in m
    ensures m != multiset{} && |m - multiset{x}| == |m| - 1
  {
  }

  lemma ChkEmptyKeepsInv(f: File)
    requires f.unlinkGrants == [] && f.unlinking == multiset{}
    requires |f.holders| == (if f.accessing then 1 else 0)
    requires f.access != [] ==> f.accessing
    requires !f.IsDeleted()
    requires f.del == [] || !f.CanBeDeleted()
    ensures FileInv(ChkEmpty(f))
  {
  }

  lemma UnlockKeepsInv(f: File, worker: Id)
    requires FileInv(f) && worker in f.locks
    ensures FileInv(Unlock(f, worker))
  {
  }

  lemma CleanLockKeepsInv(f: File, worker: Id)
    requires FileInv(f) && f.unlinkGrants == []
    ensures FileInv(CleanLock(f, worker))
  {
  }

  lemma HookAccessKeepsInv(f: File, q: Req)
    requires FileInv(f)
    ensures FileInv(HookAccess(f, q).0)
  {
  }

  lemma ReleaseAccessKeepsInv(f: File, q: Req)
    requires FileInv(f) && q in f.holders
    ensures FileInv(ReleaseAccess(f, q))
  {
    MultisetNonEmpty(f.holders, q);
    var g := f.(accessing := false, holders := f.holders - multiset{q});
    if !f.IsDeleted() && f.access == [] {
      ChkEmptyKeepsInv(g);
    }
  }

  lemma HookUnlinkKeepsInv(f: File, q: Req)
    requires FileInv(f)
    ensures FileInv(HookUnlink(f, q))
  {
  }

  lemma ReleaseUnlinkKeepsInv(f: File, q: Req)
    requires FileInv(f) && q in f.unlinking
    ensures FileInv(ReleaseUnlink(f, q))
  {
  }

  /** Every legal step, whatever came before, keeps the invariant. */
  lemma StepKeepsInv(f: File, e: Event)
    requires FileInv(f) && Legal(f, e)
    ensures FileInv(Step(f, e))
  {
    match e
    case ELock(q) =>
    case EUnlock(w) => UnlockKeepsInv(f, w);
    case ECleanLock(w) => CleanLockKeepsInv(f, w);
    case EHookAccess(q) => HookAccessKeepsInv(f, q);
    case EReleaseAccess(q) => ReleaseAccessKeepsInv(f, q);
    case ECleanAccess(w) => CleanedSubsequence([], f.access, w);
    case EHookUnlink(q) => HookUnlinkKeepsInv(f, q);
    case EReleaseUnlink(q) => ReleaseUnlinkKeepsInv(f, q);
    case ECleanUnlink(w) => CleanedSubsequence([], f.del, w);
  }

  lemma {:induction false} RunKeepsInv(f: File, es: seq<Event>)
    requires FileInv(f) && LegalRun(f, es)
    ensures FileInv(Run(f, es))
  {
    if es != [] {
      RunKeepsInv(f, es[..|es| - 1]);
      StepKeepsInv(Run(f, es[..|es| - 1]), es[|es| - 1]);
    }
  }

  // ---- What each operation does to a file, through all the private steps ----

  /** Whether the deletion of the file has begun. */
  predicate Doomed(f: File) {
    f.state == Deleting || f.state == Deleted
  }

  /** A lock is refused exactly when the deletion has begun. */
  lemma LockAnswers(f: File, q: Req)
    ensures Lock(f, q).1 <==> !Doomed(f)
    ensures Lock(f, q).0 ==
            if Doomed(f) then f
            else f.(locks := f.locks + multiset{q.worker}, state := Locked, lockGrants := f.lockGrants + [q])
  {
  }

  /** So is an access; any other access is granted at once or stands last in the queue. */
  lemma HookAccessAnswers(f: File, q: Req)
    requires FileInv(f)
    ensures HookAccess(f, q).1 <==> !Doomed(f)
    ensures HookAccess(f, q).0 ==
            if Doomed(f) then f
            else if f.accessing then f.(access := f.access + [q])
            else f.(accessing := true, holders := multiset{q}, accessGrants := f.accessGrants + [q])
  {
    if !Doomed(f) && !f.accessing {
      assert f.holders == multiset{} && f.access == [];
      assert [q][1..] == [];
    }
  }

  /** The first of the waiting unlinks is granted; a free file begins to be deleted. */
  function Unlinked(f: File): File
    requires f.del != []
  {
    f.(del := f.del[1..], unlinking := f.unlinking + multiset{f.del[0]}, unlinkGrants := f.unlinkGrants + [f.del[0]],
       state := if f.state == Free then Deleting else f.state)
  }

  /** The file is free, and its first waiting unlink is granted. */
  function Freed(f: File): File {
    var g := f.(state := Free);
    if f.del == [] then g else Unlinked(g)
  }

  /** An unlink that is requested of a file marked busy waits; otherwise the first waiting one is granted. */
  lemma HookUnlinkAnswers(f: File, q: Req)
    ensures HookUnlink(f, q) ==
            var g := f.(del := f.del + [q]);
            if f.state == Locked || f.state == Access then g else Unlinked(g)
  {
  }

  lemma NobodyLeft(g: File)
    requires g.locks == multiset{} && g.access == [] && !g.accessing
    ensures ChkEmpty(g) == Freed(g)
  {
  }

  lemma LastRelease(f: File, g: File)
    requires FileInv(f) && f.access == [] && f.accessing && g == f.(accessing := false, holders := multiset{})
    ensures TryAccess(g).0 == if Doomed(f) || f.locks != multiset{} then g else Freed(g)
  {
    if f.locks == multiset{} {
      NobodyLeft(g);
    }
  }

  lemma NextAccess(g: File)
    requires !Doomed(g) && !g.accessing && g.access != [] && g.holders == multiset{}
    ensures TryAccess(g).0 ==
            g.(access := g.access[1..], accessing := true, holders := multiset{g.access[0]},
               accessGrants := g.accessGrants + [g.access[0]])
  {
    assert g.holders + multiset{g.access[0]} == multiset{g.access[0]};
  }

  /** The end of an access lets the next one in; the last one frees a file that is not locked. */
  lemma ReleaseAccessAnswers(f: File, q: Req)
    requires FileInv(f) && q in f.holders
    ensures ReleaseAccess(f, q) ==
            var g := f.(accessing := false, holders := multiset{});
            if !Doomed(f) && f.access != [] then
              f.(access := f.access[1..], holders := multiset{f.access[0]},
                 accessGrants := f.accessGrants + [f.access[0]])
            else if Doomed(f) || f.locks != multiset{} then g
            else Freed(g)
  {
    MultisetNonEmpty(f.holders, q);
    assert f.holders - multiset{q} == multiset{};
    var g := f.(accessing := false, holders := multiset{});
    if f.access == [] {
      LastRelease(f, g);
    } else if !Doomed(f) {
      NextAccess(g);
    }
  }

  /** The last unlock frees a file without accesses and marks one with a single access; a file with
      waiting accesses stays marked as locked. */
  lemma UnlockAnswers(f: File, worker: Id)
    requires FileInv(f) && worker in f.locks
    ensures Unlock(f, worker) ==
            var g := f.(locks := f.locks - multiset{worker});
            if g.locks != multiset{} || f.access != [] then g
            else if f.accessing then g.(state := Access)
            else Freed(g)
  {
  }

  /** Cleaning the locks of one id, or all of them, does the same as the last unlock when it leaves none. */
  lemma CleanLockAnswers(f: File, worker: Id)
    requires FileInv(f) && !Doomed(f)
    ensures var rest := CleanLock(f, worker).locks;
            && (forall other: Id :: rest[other] == if worker == "" || other == worker then 0 else f.locks[other])
            && CleanLock(f, worker) ==
               var g := f.(locks := rest);
               if rest != multiset{} || f.access != [] then g
               else if f.accessing then g.(state := Access)
               else Freed(g)
  {
    var g := f.(locks := Cleaned(f.locks, worker));
    if g.locks == multiset{} && f.access == [] && !f.accessing {
      NobodyLeft(g);
    }
  }

  /** `tryAccess` reports exactly whether the deletion has not begun. */
  lemma TryAccessAnswers(f: File)
    ensures TryAccess(f).1 <==> !Doomed(f)
  {
  }

  /** The end of an unlink leaves the file deleted and grants the next unlink. */
  lemma ReleaseUnlinkAnswers(f: File, q: Req)
    ensures ReleaseUnlink(f, q) ==
            var g := f.(state := Deleted, unlinking := f.unlinking - multiset{q});
            if f.del == [] then g else Unlinked(g)
  {
  }

  // ---- Deletion safety ----

  /** An unlink is granted only while no lock on the file is held. */
  lemma UnlinkNeedsNoLock(f: File, e: Event)
    requires FileInv(f) && Legal(f, e)
    requires Step(f, e).unlinkGrants != f.unlinkGrants
    ensures Step(f, e).locks == multiset{}
  {
    StepKeepsInv(f, e);
  }

  /** A step on a file with a granted unlink grants no lock and no access, and leaves the waiting
      accesses alone unless it cleans them. */
  lemma DeletedStep(f: File, e: Event)
    requires FileInv(f) && Legal(f, e) && f.unlinkGrants != []
    ensures var g := Step(f, e);
            && g.unlinkGrants != []
            && g.lockGrants == f.lockGrants
            && g.accessGrants == f.accessGrants
            && (g.access == f.access || e.ECleanAccess?)
  {
    assert f.IsDeleted() && f.locks == multiset{};
    match e
    case EHookUnlink(q) => UnlinkGrantsOnlyUnlinks(f.(del := f.del + [q]));
    case EReleaseUnlink(q) => UnlinkGrantsOnlyUnlinks(f.(state := Deleted, unlinking := f.unlinking - multiset{q}));
    case _ =>
  }

  lemma UnlinkGrantsOnlyUnlinks(f: File)
    requires f.unlinkGrants != []
    ensures var g := TryDelete(f);
            && g.unlinkGrants != [] && g.lockGrants == f.lockGrants
            && g.accessGrants == f.accessGrants && g.access == f.access
  {
  }

  lemma {:induction false} GrantsStopAfterUnlink(f: File, es: seq<Event>)
    requires FileInv(f) && LegalRun(f, es) && f.unlinkGrants != []
    ensures var g := Run(f, es);
            && g.unlinkGrants != []
            && g.lockGrants == f.lockGrants
            && g.accessGrants == f.accessGrants
  {
    if es != [] {
      GrantsStopAfterUnlink(f, es[..|es| - 1]);
      RunKeepsInv(f, es[..|es| - 1]);
      DeletedStep(Run(f, es[..|es| - 1]), es[|es| - 1]);
    }
  }

  /** Deletion safety of whole runs: once the first unlink of a file has been granted, no lock is
      held, and no lock or access is ever granted again. */
  lemma {:induction false} DeletionSafety(before: seq<Event>, after: seq<Event>)
    requires LegalRun(NewFile(), before) && LegalRun(Run(NewFile(), before), after)
    requires Run(NewFile(), before).unlinkGrants != []
    ensures var f, g := Run(NewFile(), before), Run(Run(NewFile(), before), after);
            && g.locks == multiset{} && g.IsDeleted()
            && g.lockGrants == f.lockGrants && g.accessGrants == f.accessGrants
  {
    RunKeepsInv(NewFile(), before);
    GrantsStopAfterUnlink(Run(NewFile(), before), after);
    RunKeepsInv(Run(NewFile(), before), after);
  }

  /** Exclusive access over whole runs. */
  lemma {:induction false} AtMostOneAccess(es: seq<Event>)
    requires LegalRun(NewFile(), es)
    ensures |Run(NewFile(), es).holders| <= 1
    ensures Run(NewFile(), es).accessing <==> Run(NewFile(), es).holders != multiset{}
  {
    RunKeepsInv(NewFile(), es);
    var f := Run(NewFile(), es);
    if f.holders == multiset{} {
    } else {
      var q :| q in f.holders;
    }
  }

  // ---- Exclusive access after a closure that is run twice ----

  /** Somebody is active, nothing has been deleted, and the second run of another closure does not
      itself grant an unlink. */
  predicate LosesExclusion(f: File) {
    f.accessing && !f.IsDeleted() && (f.access != [] || f.locks != multiset{} || f.del == [])
  }

  /** The second run of a closure lets the next access join at once exactly when one waits. */
  lemma StaleReleaseGrants(f: File, q: Req)
    requires FileInv(f) && q !in f.holders
    ensures |ReleaseAccess(f, q).holders| > 1 <==> LosesExclusion(f) && f.access != []
  {
    assert f.holders - multiset{q} == f.holders;
  }

  /** When none waits, it clears the flag of whoever is active, and the file looks idle to requests. */
  lemma StaleReleaseClearsFlag(f: File, q: Req)
    requires FileInv(f) && q !in f.holders && LosesExclusion(f) && f.access == []
    ensures var g := ReleaseAccess(f, q);
            !g.IsDeleted() && !g.accessing && g.access == [] && |g.holders| == 1
  {
    assert f.holders - multiset{q} == f.holders;
  }

  /** A file on which nothing is granted any more except unlinks. */
  predicate Sealed(f: File) {
    f.IsDeleted() && f.unlinkGrants != [] && f.locks == multiset{} && |f.holders| <= 1
  }

  lemma StaleReleaseElsewhere(f: File, q: Req)
    requires FileInv(f) && q !in f.holders && !LosesExclusion(f)
    ensures ReleaseAccess(f, q) == f || Sealed(ReleaseAccess(f, q))
  {
    assert f.holders - multiset{q} == f.holders;
    assert f.(holders := f.holders - multiset{q}) == f;
  }

  lemma GrantJoins(g: File, r: Req)
    requires !g.IsDeleted() && !g.accessing && g.access == [r]
    ensures |TryAccess(g).0.holders| == |g.holders| + 1
  {
  }

  lemma HoldersGrow(g: File, r: Req)
    ensures |HookAccess(g, r).0.holders| >= |g.holders|
  {
  }

  /** So the next request, whoever makes it, joins the active access exactly when exclusiveness is
      lost: the moment at which it breaks is the second run or the access after it. */
  lemma StaleReleaseThenAccess(f: File, q: Req, r: Req)
    requires FileInv(f) && q !in f.holders
    ensures |HookAccess(ReleaseAccess(f, q), r).0.holders| > 1 <==> LosesExclusion(f)
  {
    var g := ReleaseAccess(f, q);
    StaleReleaseGrants(f, q);
    if !LosesExclusion(f) {
      StaleReleaseElsewhere(f, q);
      if g == f {
        HookAccessKeepsInv(f, r);
      }
    } else if f.access == [] {
      StaleReleaseClearsFlag(f, q);
      GrantJoins(g.(access := [r]), r);
    } else {
      HoldersGrow(g, r);
    }
  }

  lemma SealedStep(f: File, e: Event)
    requires Sealed(f) && Legal(f, e)
    ensures Sealed(Step(f, e))
  {
  }

  lemma {:induction false} SealedRun(f: File, es: seq<Event>)
    requires Sealed(f) && LegalRun(f, es)
    ensures Sealed(Run(f, es))
  {
    if es != [] {
      SealedRun(f, es[..|es| - 1]);
      SealedStep(Run(f, es[..|es| - 1]), es[|es| - 1]);
    }
  }

  /** A legal run from f after which two accesses are unreleased. */
  ghost predicate LetsTwoIn(f: File, es: seq<Event>) {
    LegalRun(f, es) && |Run(f, es).holders| > 1
  }

  /** The second run of a closure breaks exclusiveness, at once or in some legal run that follows,
      exactly when somebody else is active, nothing has been deleted, and a request waits, a lock is
      held, or no unlink waits. */
  lemma {:induction false} StaleReleaseBreaksExclusionIff(f: File, q: Req)
    requires FileInv(f) && q !in f.holders
    ensures (exists es :: LetsTwoIn(ReleaseAccess(f, q), es)) <==> LosesExclusion(f)
  {
    var g := ReleaseAccess(f, q);
    if LosesExclusion(f) {
      StaleReleaseThenAccess(f, q, q);
      assert LegalRun(g, []);
      assert Run(g, [EHookAccess(q)]) == HookAccess(Run(g, []), q).0;
      assert LetsTwoIn(g, [EHookAccess(q)]);
    } else {
      StaleReleaseElsewhere(f, q);
      forall es | LegalRun(g, es)
        ensures !LetsTwoIn(g, es)
      {
        if g == f {
          RunKeepsInv(f, es);
        } else {
          SealedRun(g, es);
        }
      }
    }
  }

  predicate Idle(f: File) {
    f.locks == multiset{} && f.access == [] && !f.accessing
  }

  /** The two steps that make the state notice a busy file: taking a lock, and cleaning locks while
      the last accepted access is active. */
  predicate Marks(f: File, e: Event) {
    e.ELock? || (e.ECleanLock? && f.accessing && f.access == [])
  }

  /** Whether the file has been marked busy since it was last idle. */
  predicate MarkedSinceIdle(es: seq<Event>) {
    es != [] &&
    (var init, e := es[..|es| - 1], es[|es| - 1];
     var f := Run(NewFile(), init);
     !Idle(Step(f, e)) && (MarkedSinceIdle(init) || Marks(f, e)))
  }

  lemma {:induction false} FreeUntilMarked(es: seq<Event>)
    requires LegalRun(NewFile(), es) && Run(NewFile(), es).unlinkGrants == []
    ensures Run(NewFile(), es).state == Free <==> !MarkedSinceIdle(es)
  {
    if es != [] {
      var init, e := es[..|es| - 1], es[|es| - 1];
      var f := Run(NewFile(), init);
      RunKeepsInv(NewFile(), init);
      UnlinkGrantsGrow(f, e);
      FreeUntilMarked(init);
      FreeStep(f, e);
    }
  }

  lemma UnlinkGrantsGrow(f: File, e: Event)
    ensures |f.unlinkGrants| <= |Step(f, e).unlinkGrants|
  {
  }

  /** Before any unlink is granted, marking makes the state busy and idleness makes it free; nothing
      else changes whether it is free. */
  lemma FreeStep(f: File, e: Event)
    requires FileInv(f) && Legal(f, e) && Step(f, e).unlinkGrants == [] && f.unlinkGrants == []
    ensures Step(f, e).state == Free <==> Idle(Step(f, e)) || (f.state == Free && !Marks(f, e))
  {
    match e
    case EUnlock(w) => FreeAfterUnlock(f, w);
    case ECleanLock(w) => FreeAfterCleanLock(f, w);
    case EHookAccess(q) => FreeAfterHook(f, q);
    case EReleaseAccess(q) => FreeAfterRelease(f, q);
    case _ =>
  }

  lemma FreeAfterUnlock(f: File, w: Id)
    requires FileInv(f) && w in f.locks && Unlock(f, w).unlinkGrants == []
    ensures f.state != Free && (Unlock(f, w).state == Free <==> Idle(Unlock(f, w)))
  {
  }

  lemma FreeAfterCleanLock(f: File, w: Id)
    requires FileInv(f) && CleanLock(f, w).unlinkGrants == []
    ensures var g := CleanLock(f, w);
            g.state == Free <==> Idle(g) || (f.state == Free && !(f.accessing && f.access == []))
  {
  }

  lemma FreeAfterHook(f: File, q: Req)
    requires FileInv(f) && f.unlinkGrants == []
    ensures HookAccess(f, q).0.state == f.state && !Idle(HookAccess(f, q).0)
  {
  }

  lemma FreeAfterRelease(f: File, q: Req)
    requires FileInv(f) && q in f.holders && ReleaseAccess(f, q).unlinkGrants == []
    ensures var g := ReleaseAccess(f, q); g.state == Free <==> Idle(g) || f.state == Free
  {
  }

  lemma HoldersFollowFlag(f: File)
    requires FileInv(f)
    ensures f.accessing <==> f.holders != multiset{}
  {
    assert |f.holders| == if f.accessing then 1 else 0;
  }

  /** Normalising the state grants an unlink only while no access is active. */
  lemma ChkEmptyMeetsNoAccess(f: File)
    ensures ChkEmpty(f).unlinkGrants != f.unlinkGrants ==> !f.accessing
    ensures ChkEmpty(f).holders == f.holders
  {
  }

  lemma HookUnlinkMeetsAccess(f: File, q: Req)
    requires FileInv(f) && f.unlinkGrants == []
    ensures HookUnlink(f, q).unlinkGrants != [] && HookUnlink(f, q).holders != multiset{}
       <==> f.accessing && f.state == Free
  {
    HoldersFollowFlag(f);
  }

  lemma ReleaseMeetsNoAccess(f: File, q: Req)
    requires FileInv(f) && q in f.holders && f.unlinkGrants == []
    ensures ReleaseAccess(f, q).unlinkGrants == [] || ReleaseAccess(f, q).holders == multiset{}
  {
    MultisetNonEmpty(f.holders, q);
    var g := f.(accessing := false, holders := f.holders - multiset{q});
    assert g.holders == multiset{};
    if f.access == [] {
      ChkEmptyMeetsNoAccess(g);
    }
  }

  /** Any other step that grants the first unlink leaves no access active. */
  lemma FirstUnlinkMeetsAccess(f: File, e: Event)
    requires FileInv(f) && Legal(f, e) && f.unlinkGrants == []
    ensures Step(f, e).unlinkGrants != [] && Step(f, e).holders != multiset{}
       <==> e.EHookUnlink? && f.accessing && f.state == Free
  {
    HoldersFollowFlag(f);
    match e
    case EUnlock(w) => ChkEmptyMeetsNoAccess(f.(locks := f.locks - multiset{w}));
    case ECleanLock(w) => ChkEmptyMeetsNoAccess(f.(locks := Cleaned(f.locks, w)));
    case EHookAccess(q) => FreeAfterHook(f, q);
    case EReleaseAccess(q) => ReleaseMeetsNoAccess(f, q);
    case EHookUnlink(q) => HookUnlinkMeetsAccess(f, q);
    case _ =>
  }

  /** The resolver's state says nothing about accesses: a legal step grants the first unlink during
      an active access exactly when it requests an unlink while an access is active and the file has
      not been marked busy since it was last idle. */
  lemma {:induction false} UnlinkDuringAccessIff(es: seq<Event>, e: Event)
    requires LegalRun(NewFile(), es) && Run(NewFile(), es).unlinkGrants == []
    requires Legal(Run(NewFile(), es), e)
    ensures Step(Run(NewFile(), es), e).unlinkGrants != [] && Step(Run(NewFile(), es), e).holders != multiset{}
       <==> e.EHookUnlink? && Run(NewFile(), es).accessing && !MarkedSinceIdle(es)
  {
    RunKeepsInv(NewFile(), es);
    FreeUntilMarked(es);
    FirstUnlinkMeetsAccess(Run(NewFile(), es), e);
  }

  lemma TryDeleteGrants(f: File)
    ensures |TryDelete(f).unlinking| == |f.unlinking| + if f.CanBeDeleted() && f.del != [] then 1 else 0
  {
  }

  lemma ChkEmptyGrantsOne(f: File)
    requires f.unlinking == multiset{}
    ensures |ChkEmpty(f).unlinking| <= 1
  {
  }

  lemma FirstUnlinkAlone(f: File, e: Event)
    requires FileInv(f) && Legal(f, e) && f.unlinking == multiset{}
    ensures |Step(f, e).unlinking| <= 1
  {
    match e
    case EUnlock(w) => ChkEmptyGrantsOne(f.(locks := f.locks - multiset{w}));
    case ECleanLock(w) => ChkEmptyGrantsOne(f.(locks := Cleaned(f.locks, w)));
    case EReleaseAccess(q) => ChkEmptyGrantsOne(f.(accessing := false, holders := f.holders - multiset{q}));
    case EHookUnlink(q) => TryDeleteGrants(f.(del := f.del + [q]));
    case _ =>
  }

  lemma FurtherUnlink(f: File, e: Event)
    requires FileInv(f) && Legal(f, e) && |f.unlinking| == 1
    ensures |Step(f, e).unlinking| == 2 <==> e.EHookUnlink?
    ensures |Step(f, e).unlinking| <= 2
  {
    assert f.IsDeleted() && f.locks == multiset{};
    match e
    case EReleaseUnlink(q) =>
      MultisetNonEmpty(f.unlinking, q);
      TryDeleteGrants(f.(state := Deleted, unlinking := f.unlinking - multiset{q}));
    case EHookUnlink(q) => TryDeleteGrants(f.(del := f.del + [q]));
    case _ =>
  }

  /** Unlinks are not granted one at a time: from at most one outstanding unlink, a legal step leads to
      two exactly when a further unlink is requested before the first one has been released. */
  lemma UnlinksOverlapIff(f: File, e: Event)
    requires FileInv(f) && Legal(f, e) && |f.unlinking| <= 1
    ensures |Step(f, e).unlinking| > 1 <==> e.EHookUnlink? && f.unlinking != multiset{}
  {
    if f.unlinking == multiset{} {
      FirstUnlinkAlone(f, e);
    } else {
      FurtherUnlink(f, e);
    }
  }

  /** An unlock without a held lock can revive a deleted file: it does so exactly when nobody waits
      for access and either an access is still active or no unlink is left to be granted. In every
      other case, and on every file that is not deleted, it keeps the invariant. */
  lemma StaleUnlockRevivesIff(f: File, worker: Id)
    requires FileInv(f) && worker !in f.locks
    ensures f.IsDeleted() && !Unlock(f, worker).IsDeleted()
       <==> f.IsDeleted() && f.access == [] && (f.accessing || f.del == [])
    ensures FileInv(Unlock(f, worker))
       <==> !(f.IsDeleted() && f.access == [] && (f.accessing || f.del == []))
  {
    assert f.locks - multiset{worker} == f.locks;
  }

  /** Lock cleaning on a deleted file is such an unlock, since no lock is left to clean. */
  lemma CleanLockOnDeleted(f: File, worker: Id, other: Id)
    requires FileInv(f) && f.IsDeleted()
    ensures CleanLock(f, worker) == Unlock(f, other)
  {
    assert f.locks == multiset{};
    assert f.(locks := Cleaned(f.locks, worker)) == f && f.(locks := f.locks - multiset{other}) == f;
  }

  /** A legal run from f that grants a lock or an access. */
  ghost predicate GrantsMore(f: File, es: seq<Event>) {
    && LegalRun(f, es)
    && (Run(f, es).lockGrants != f.lockGrants || Run(f, es).accessGrants != f.accessGrants)
  }

  lemma RevivedFileGrants(f: File, q: Req)
    requires !f.IsDeleted()
    ensures GrantsMore(f, [ELock(q)])
  {
    assert LegalRun(f, []) && Run(f, []) == f;
    assert Run(f, [ELock(q)]) == Step(Run(f, []), ELock(q));
  }

  /** After a stale unlock of a deleted file, some legal run grants a lock or an access again exactly
      when the unlock revives the file. */
  lemma {:induction false} StaleUnlockBreaksDeletionIff(f: File, worker: Id)
    requires FileInv(f) && f.IsDeleted()
    ensures (exists es :: GrantsMore(Unlock(f, worker), es))
       <==> f.access == [] && (f.accessing || f.del == [])
  {
    var g := Unlock(f, worker);
    StaleUnlockRevivesIff(f, worker);
    if !g.IsDeleted() {
      RevivedFileGrants(g, Req(worker, ""));
    } else {
      forall es | LegalRun(g, es)
        ensures !GrantsMore(g, es)
      {
        GrantsStopAfterUnlink(g, es);
      }
    }
  }

  /** A second run of an unlink's closure keeps the invariant. */
  lemma StaleUnlinkReleaseKeepsInv(f: File, q: Req)
    requires FileInv(f) && q !in f.unlinking && f.unlinkGrants != []
    ensures FileInv(ReleaseUnlink(f, q))
  {
    assert f.unlinking - multiset{q} == f.unlinking;
  }

  // ---- Runs in which each of these happens ----

  /** A legal run from a new file ends in f. */
  predicate Leads(es: seq<Event>, f: File) {
    LegalRun(NewFile(), es) && Run(NewFile(), es) == f
  }

  lemma LeadsNext(es: seq<Event>, f: File, e: Event)
    requires Leads(es, f) && Legal(f, e)
    ensures Leads(es + [e], Step(f, e))
  {
    assert (es + [e])[..|es|] == es;
  }

  lemma LeadsFirst(e: Event)
    requires Legal(NewFile(), e)
    ensures Leads([e], Step(NewFile(), e))
  {
    LeadsNext([], NewFile(), e);
    assert [] + [e] == [e];
  }

  /** On a file that was never locked, an unlink is granted during the first access. */
  lemma UnlinkDuringAccess(a: Req, u: Req)
    ensures LegalRun(NewFile(), [EHookAccess(a)])
    ensures HookUnlink(Run(NewFile(), [EHookAccess(a)]), u).holders == multiset{a}
    ensures HookUnlink(Run(NewFile(), [EHookAccess(a)]), u).unlinkGrants == [u]
  {
    LeadsFirst(EHookAccess(a));
  }

  lemma TwoUnlinksOutstanding(a: Req, b: Req)
    ensures LegalRun(NewFile(), [EHookUnlink(a), EHookUnlink(b)])
    ensures Run(NewFile(), [EHookUnlink(a), EHookUnlink(b)]).unlinking == multiset{a, b}
  {
    LeadsFirst(EHookUnlink(a));
    LeadsNext([EHookUnlink(a)], HookUnlink(NewFile(), a), EHookUnlink(b));
    assert [EHookUnlink(a)] + [EHookUnlink(b)] == [EHookUnlink(a), EHookUnlink(b)];
  }

  /** After a finished deletion, an unlock that nobody holds lets the file be locked again. */
  lemma UnlockRevivesDeleted(a: Req, w: Id, q: Req)
    ensures LegalRun(NewFile(), [EHookUnlink(a), EReleaseUnlink(a)])
    ensures var f := Run(NewFile(), [EHookUnlink(a), EReleaseUnlink(a)]);
            f.state == Deleted && !Lock(f, q).1 && Lock(Unlock(f, w), q).1
  {
    var f := HookUnlink(NewFile(), a);
    LeadsFirst(EHookUnlink(a));
    LeadsNext([EHookUnlink(a)], f, EReleaseUnlink(a));
    assert [EHookUnlink(a)] + [EReleaseUnlink(a)] == [EHookUnlink(a), EReleaseUnlink(a)];
    assert f.locks - multiset{w} == multiset{};
  }

  lemma TwoAccesses(a: Req, b: Req) returns (f: File)
    ensures Leads([EHookAccess(a), EHookAccess(b)], f)
    ensures f == NewFile().(holders := multiset{a}, accessing := true, access := [b], accessGrants := [a])
  {
    f := HookAccess(NewFile(), a).0;
    LeadsFirst(EHookAccess(a));
    LeadsNext([EHookAccess(a)], f, EHookAccess(b));
    assert [EHookAccess(a)] + [EHookAccess(b)] == [EHookAccess(a), EHookAccess(b)];
    f := HookAccess(f, b).0;
    assert f.access == [b];
  }

  /** One active access and two waiting ones. */
  predicate OneAndTwo(f: File, a: Req, b: Req, c: Req) {
    f.holders == multiset{a} && f.accessing && f.access == [b, c] && f.state == Free
  }

  lemma ThreeAccesses(a: Req, b: Req, c: Req) returns (f: File)
    ensures Leads([EHookAccess(a), EHookAccess(b), EHookAccess(c)], f) && OneAndTwo(f, a, b, c)
  {
    f := TwoAccesses(a, b);
    LeadsNext([EHookAccess(a), EHookAccess(b)], f, EHookAccess(c));
    assert [EHookAccess(a), EHookAccess(b)] + [EHookAccess(c)] == [EHookAccess(a), EHookAccess(b), EHookAccess(c)];
    f := HookAccess(f, c).0;
  }

  lemma ReleasedTwice(f: File, a: Req, b: Req, c: Req)
    requires OneAndTwo(f, a, b, c) && a != b
    ensures ReleaseAccess(ReleaseAccess(f, a), a).holders == multiset{b, c}
  {
    var g := ReleaseAccess(f, a);
    assert g.holders == multiset{b} && g.access == [c] && g.holders - multiset{a} == multiset{b};
  }

  /** The first of three accesses, released twice, lets the other two in together. */
  lemma SecondReleaseLetsTwoIn(a: Req, b: Req, c: Req)
    requires a != b
    ensures var es := [EHookAccess(a), EHookAccess(b), EHookAccess(c), EReleaseAccess(a)];
            LegalRun(NewFile(), es) && ReleaseAccess(Run(NewFile(), es), a).holders == multiset{b, c}
  {
    var es := [EHookAccess(a), EHookAccess(b), EHookAccess(c)];
    var f := ThreeAccesses(a, b, c);
    LeadsNext(es, f, EReleaseAccess(a));
    assert es + [EReleaseAccess(a)] == [EHookAccess(a), EHookAccess(b), EHookAccess(c), EReleaseAccess(a)];
    ReleasedTwice(f, a, b, c);
  }

  /** One active access and a waiting one, whose predecessor's closure is then run twice. */
  lemma ReleasedTwiceThenHooked(f: File, a: Req, b: Req, c: Req)
    requires f.holders == multiset{a} && f.accessing && f.access == [b] && f.state == Free && f.del == [] && a != b
    ensures var g := ReleaseAccess(f, a);
            g.access == [] && HookAccess(ReleaseAccess(g, a), c).0.holders == multiset{b, c}
  {
    var g := ReleaseAccess(f, a);
    assert g.holders == multiset{b} && g.access == [] && g.holders - multiset{a} == multiset{b};
  }

  /** The queue is empty when a closure is run twice, and the next request joins the active access. */
  lemma NextAccessJoins(a: Req, b: Req, c: Req)
    requires a != b
    ensures var es := [EHookAccess(a), EHookAccess(b), EReleaseAccess(a)];
            var f := Run(NewFile(), es);
            && LegalRun(NewFile(), es) && f.access == []
            && HookAccess(ReleaseAccess(f, a), c).0.holders == multiset{b, c}
  {
    var f := TwoAccesses(a, b);
    ReleasedTwiceThenHooked(f, a, b, c);
    var es := [EHookAccess(a), EHookAccess(b)];
    LeadsNext(es, f, EReleaseAccess(a));
    assert es + [EReleaseAccess(a)] == [EHookAccess(a), EHookAccess(b), EReleaseAccess(a)];
  }

  // ---- Cleaning ----

  /** Cleaning removes every waiting request of the worker, or of everybody for the empty id, and leaves
      the others in their order. */
  lemma CleaningIsExact(queue: seq<Req>, worker: Id, q: Req)
    ensures IsSubsequence(CleanedQueue(queue, worker), queue)
    ensures Occurrences(CleanedQueue(queue, worker), q) ==
            if worker == "" || q.worker == worker then 0 else Occurrences(queue, q)
  {
    CleanedSubsequence([], queue, worker);
    assert [] + CleanedQueue(queue, worker) == CleanedQueue(queue, worker) && [] + queue == queue;
    if worker != "" {
      KeepOccurrences(queue, Not(OfWorker(worker)), q, q.worker != worker);
    }
  }

  // ---- Fairness: both queues are first-in first-out ----

  /** The access requests that were accepted, in the order in which they arrived. */
  function AccessArrivals(f: File, es: seq<Event>): seq<Req> {
    if es == [] then f.access
    else
      var init, e := es[..|es| - 1], es[|es| - 1];
      AccessArrivals(f, init) +
      (if e.EHookAccess? && !Run(f, init).IsDeleted() then [e.req] else [])
  }

  function UnlinkArrivals(f: File, es: seq<Event>): seq<Req> {
    if es == [] then f.del
    else
      UnlinkArrivals(f, es[..|es| - 1]) +
      (if es[|es| - 1].EHookUnlink? then [es[|es| - 1].req] else [])
  }

  ghost predicate NoCleaning(es: seq<Event>) {
    forall e :: e in es ==> !e.ECleanAccess? && !e.ECleanUnlink?
  }

  function AccessLine(f: File): seq<Req> { f.accessGrants + f.access }

  function UnlinkLine(f: File): seq<Req> { f.unlinkGrants + f.del }

  /** A grant moves a request from one part of a line to the other. */
  lemma GrantsKeepLines(f: File)
    ensures AccessLine(TryDelete(f)) == AccessLine(f) && UnlinkLine(TryDelete(f)) == UnlinkLine(f)
    ensures AccessLine(ChkEmpty(f)) == AccessLine(f) && UnlinkLine(ChkEmpty(f)) == UnlinkLine(f)
    ensures AccessLine(TryAccess(f).0) == AccessLine(f) && UnlinkLine(TryAccess(f).0) == UnlinkLine(f)
  {
    assert f.del != [] ==> f.unlinkGrants + [f.del[0]] + f.del[1..] == UnlinkLine(f);
    assert f.access != [] ==> f.accessGrants + [f.access[0]] + f.access[1..] == AccessLine(f);
  }

  lemma UnlockLines(f: File, w: Id)
    ensures AccessLine(Unlock(f, w)) == AccessLine(f) && UnlinkLine(Unlock(f, w)) == UnlinkLine(f)
    ensures AccessLine(CleanLock(f, w)) == AccessLine(f) && UnlinkLine(CleanLock(f, w)) == UnlinkLine(f)
  {
    GrantsKeepLines(f.(locks := f.locks - multiset{w}));
    GrantsKeepLines(f.(locks := Cleaned(f.locks, w)));
  }

  lemma HookAccessLines(f: File, q: Req)
    ensures AccessLine(HookAccess(f, q).0) == if f.IsDeleted() then AccessLine(f) else AccessLine(f) + [q]
    ensures UnlinkLine(HookAccess(f, q).0) == UnlinkLine(f)
  {
    var g := f.(access := f.access + [q]);
    GrantsKeepLines(g);
    assert AccessLine(g) == AccessLine(f) + [q];
  }

  lemma ReleaseAccessLines(f: File, q: Req)
    ensures AccessLine(ReleaseAccess(f, q)) == AccessLine(f) && UnlinkLine(ReleaseAccess(f, q)) == UnlinkLine(f)
  {
    GrantsKeepLines(f.(accessing := false, holders := f.holders - multiset{q}));
  }

  lemma UnlinkLines(f: File, q: Req)
    ensures AccessLine(HookUnlink(f, q)) == AccessLine(f) && UnlinkLine(HookUnlink(f, q)) == UnlinkLine(f) + [q]
    ensures AccessLine(ReleaseUnlink(f, q)) == AccessLine(f) && UnlinkLine(ReleaseUnlink(f, q)) == UnlinkLine(f)
  {
    var g := f.(del := f.del + [q]);
    GrantsKeepLines(g);
    GrantsKeepLines(f.(state := Deleted, unlinking := f.unlinking - multiset{q}));
    assert UnlinkLine(g) == UnlinkLine(f) + [q];
  }

  /** What one step does to the two lines: it appends an accepted request, or removes cleaned ones
      from the waiting part, or leaves the line alone; a grant never reorders it. */
  lemma StepLines(f: File, e: Event)
    ensures AccessLine(Step(f, e)) ==
            if e.EHookAccess? && !f.IsDeleted() then AccessLine(f) + [e.req]
            else if e.ECleanAccess? then f.accessGrants + CleanedQueue(f.access, e.worker)
            else AccessLine(f)
    ensures UnlinkLine(Step(f, e)) ==
            if e.EHookUnlink? then UnlinkLine(f) + [e.req]
            else if e.ECleanUnlink? then f.unlinkGrants + CleanedQueue(f.del, e.worker)
            else UnlinkLine(f)
  {
    match e
    case EUnlock(w) => UnlockLines(f, w);
    case ECleanLock(w) => UnlockLines(f, w);
    case EHookAccess(q) => HookAccessLines(f, q);
    case EReleaseAccess(q) => ReleaseAccessLines(f, q);
    case EHookUnlink(q) => UnlinkLines(f, q);
    case EReleaseUnlink(q) => UnlinkLines(f, q);
    case _ =>
  }

  lemma CleanedSubsequence(head: seq<Req>, queue: seq<Req>, worker: Id)
    ensures IsSubsequence(head + CleanedQueue(queue, worker), head + queue)
  {
    if worker == "" {
      DropTail(head, queue);
      assert head + [] == head;
    } else {
      KeepSubsequence(head, queue, Not(OfWorker(worker)));
    }
  }

  lemma {:induction false} DropTail(a: seq<Req>, b: seq<Req>)
    ensures IsSubsequence(a, a + b)
  {
    if b == [] {
      assert a + b == a;
      SubsequenceReflexive(a);
    } else {
      DropTail(a, b[..|b| - 1]);
      assert (a + b)[..|a + b| - 1] == a + b[..|b| - 1];
    }
  }

  /** In every run, legal or not, accesses are granted in arrival order: the grants followed by the
      waiting requests are what arrived, minus what was cleaned. */
  lemma {:induction false} AccessIsFifo(es: seq<Event>)
    ensures IsSubsequence(AccessLine(Run(NewFile(), es)), AccessArrivals(NewFile(), es))
    ensures NoCleaning(es) ==> AccessLine(Run(NewFile(), es)) == AccessArrivals(NewFile(), es)
  {
    if es != [] {
      var init, e := es[..|es| - 1], es[|es| - 1];
      AccessIsFifo(init);
      var f := Run(NewFile(), init);
      StepLines(f, e);
      assert e in es;
      assert forall d :: d in init ==> d in es;
      if e.ECleanAccess? {
        CleanedSubsequence(f.accessGrants, f.access, e.worker);
        SubsequenceTransitive(AccessLine(Step(f, e)), AccessLine(f), AccessArrivals(NewFile(), init));
        assert AccessArrivals(NewFile(), es) == AccessArrivals(NewFile(), init);
      } else if e.EHookAccess? && !f.IsDeleted() {
        SubsequenceAppend(AccessLine(f), AccessArrivals(NewFile(), init), [e.req]);
      } else {
        assert AccessArrivals(NewFile(), es) == AccessArrivals(NewFile(), init);
      }
    }
  }

  /** The same for unlinks, which are never refused. */
  lemma {:induction false} UnlinkIsFifo(es: seq<Event>)
    ensures IsSubsequence(UnlinkLine(Run(NewFile(), es)), UnlinkArrivals(NewFile(), es))
    ensures NoCleaning(es) ==> UnlinkLine(Run(NewFile(), es)) == UnlinkArrivals(NewFile(), es)
  {
    if es != [] {
      var init, e := es[..|es| - 1], es[|es| - 1];
      UnlinkIsFifo(init);
      var f := Run(NewFile(), init);
      StepLines(f, e);
      assert e in es;
      assert forall d :: d in init ==> d in es;
      if e.ECleanUnlink? {
        CleanedSubsequence(f.unlinkGrants, f.del, e.worker);
        SubsequenceTransitive(UnlinkLine(Step(f, e)), UnlinkLine(f), UnlinkArrivals(NewFile(), init));
        assert UnlinkArrivals(NewFile(), es) == UnlinkArrivals(NewFile(), init);
      } else if e.EHookUnlink? {
        SubsequenceAppend(UnlinkLine(f), UnlinkArrivals(NewFile(), init), [e.req]);
      } else {
        assert UnlinkArrivals(NewFile(), es) == UnlinkArrivals(NewFile(), init);
      }
    }
  }

  // ---- Progress: draining a file grants its first waiting unlink ----

  predicate IsRelease(e: Event) {
    e.EUnlock? || e.EReleaseAccess?
  }

  /** Locks held, accesses active and accesses waiting: what has to be released before an unlink. */
  function Pending(f: File): nat {
    |f.locks| + |f.holders| + |f.access|
  }

  lemma UnlockProgress(f: File, worker: Id)
    requires FileInv(f) && worker in f.locks && f.unlinkGrants == [] && f.del != []
    ensures Pending(Unlock(f, worker)) == Pending(f) - 1
    ensures Pending(f) > 1 ==> Unlock(f, worker).unlinkGrants == [] && Unlock(f, worker).del == f.del
    ensures Pending(f) == 1 ==> Unlock(f, worker).unlinkGrants == [f.del[0]]
  {
  }

  lemma ReleaseAccessProgress(f: File, q: Req)
    requires FileInv(f) && q in f.holders && f.unlinkGrants == [] && f.del != []
    ensures Pending(ReleaseAccess(f, q)) == Pending(f) - 1
    ensures Pending(f) > 1 ==> ReleaseAccess(f, q).unlinkGrants == [] && ReleaseAccess(f, q).del == f.del
    ensures Pending(f) == 1 ==> ReleaseAccess(f, q).unlinkGrants == [f.del[0]]
  {
    MultisetNonEmpty(f.holders, q);
    if f.locks != multiset{} {
      var w :| w in f.locks;
      assert |f.locks| >= 1;
    }
  }

  /** A release takes one off the pending work, and the one that takes the last off grants the first
      waiting unlink; until then no unlink is granted. */
  lemma ReleaseProgress(f: File, e: Event)
    requires FileInv(f) && Legal(f, e) && IsRelease(e) && f.unlinkGrants == [] && f.del != []
    ensures Pending(Step(f, e)) == Pending(f) - 1
    ensures Pending(f) > 1 ==> Step(f, e).unlinkGrants == [] && Step(f, e).del == f.del
    ensures Pending(f) == 1 ==> Step(f, e).unlinkGrants == [f.del[0]]
  {
    match e
    case EUnlock(w) => UnlockProgress(f, w);
    case EReleaseAccess(q) => ReleaseAccessProgress(f, q);
  }

  /** However the holders of a file release, in any order, after as many releases as there is
      pending work the first waiting unlink has been granted, and not earlier. */
  lemma {:induction false} DrainingGrantsUnlink(f: File, es: seq<Event>)
    requires FileInv(f) && f.unlinkGrants == [] && f.del != []
    requires LegalRun(f, es) && (forall e :: e in es ==> IsRelease(e)) && |es| <= Pending(f)
    ensures Pending(Run(f, es)) == Pending(f) - |es|
    ensures |es| < Pending(f) ==> Run(f, es).unlinkGrants == [] && Run(f, es).del == f.del
    ensures |es| == Pending(f) && es != [] ==> Run(f, es).unlinkGrants == [f.del[0]]
  {
    if es != [] {
      var init := es[..|es| - 1];
      DrainingGrantsUnlink(f, init);
      RunKeepsInv(f, init);
      assert es[|es| - 1] in es;
      ReleaseProgress(Run(f, init), es[|es| - 1]);
    }
  }

  /** While an unlink waits and none has been granted, there is something to release. */
  lemma WaitingUnlinkCanBeDrained(f: File)
    requires FileInv(f) && f.unlinkGrants == [] && f.del != []
    ensures exists e :: IsRelease(e) && Legal(f, e)
  {
    if f.locks != multiset{} {
      var w :| w in f.locks;
      assert IsRelease(EUnlock(w)) && Legal(f, EUnlock(w));
    } else {
      assert f.accessing && |f.holders| == 1;
      var q :| q in f.holders;
      assert IsRelease(EReleaseAccess(q)) && Legal(f, EReleaseAccess(q));
    }
  }

  /** An access that waits when the first unlink is granted waits for ever. */
  lemma {:induction false} StrandedAccess(f: File, es: seq<Event>)
    requires FileInv(f) && f.unlinkGrants != [] && LegalRun(f, es)
    requires NoCleaning(es)
    ensures Run(f, es).access == f.access
    decreases |es|
  {
    if es != [] {
      var init := es[..|es| - 1];
      assert forall d :: d in init ==> d in es;
      StrandedAccess(f, init);
      GrantsStopAfterUnlink(f, init);
      RunKeepsInv(f, init);
      assert es[|es| - 1] in es;
      DeletedStep(Run(f, init), es[|es| - 1]);
    }
  }
}
