/** core/fs-store/src/utils/FilePermissionResolver.ts as an object with its three queues.

    Each method is proved to perform one step of the transition system in FilePermissions. A call of
    a callback appends to the grant histories; the closure it hands out is ReleaseAccess or
    ReleaseUnlink. */
module FilePermissionResolvers {
  import opened Common
  import opened MultiLocks
  import opened Queues
  import FP = FilePermissions
  import opened FilePermissions

  class FilePermissionResolver {
    const access: Queue<Req>
    const del: Queue<Req>
    const multiLock: MultiLock
    var accessing: bool
    var state: ActionState

    ghost var holders: multiset<Req>
    ghost var unlinking: multiset<Req>
    ghost var lockGrants: seq<Req>
    ghost var accessGrants: seq<Req>
    ghost var unlinkGrants: seq<Req>

    ghost const Repr: set<object> := {this, access, del, multiLock}

    ghost predicate Valid()
      reads Repr
    {
      access != del && multiLock.Valid() && multiLock.lockLimit == 0
    }

    ghost function Abs(): File
      reads Repr
    {
      File(multiLock.Held, access.items, accessing, del.items, state,
           holders, unlinking, lockGrants, accessGrants, unlinkGrants)
    }

    constructor ()
      ensures Valid() && fresh(Repr) && Abs() == NewFile()
    {
      access := new Queue<Req>([]);
      del := new Queue<Req>([]);
      multiLock := new MultiLock(0);
      accessing := false;
      state := Free;
      holders, unlinking := multiset{}, multiset{};
      lockGrants, accessGrants, unlinkGrants := [], [], [];
    }

    method Lock(worker: Id, request: string) returns (ok: bool)
      requires Valid()
      modifies Repr
      ensures Valid() && Abs() == FP.Lock(old(Abs()), Req(worker, request)).0
      ensures ok == FP.Lock(old(Abs()), Req(worker, request)).1
    {
      if IsDeleted() {
        return false;
      }
      var acquired := multiLock.Acquire(worker);
      if acquired {
        state := Locked;
        lockGrants := lockGrants + [Req(worker, request)];
      }
      ok := true;
    }

    method Unlock(worker: Id)
      requires Valid()
      modifies Repr
      ensures Valid() && Abs() == FP.Unlock(old(Abs()), worker)
    {
      var released := multiLock.Release(worker);
      ChkEmpty();
    }

    method CleanLock(worker: Id)
      requires Valid()
      modifies Repr
      ensures Valid() && Abs() == FP.CleanLock(old(Abs()), worker)
    {
      multiLock.Clean(worker);
      ChkEmpty();
    }

    method ChkEmpty()
      requires Valid()
      modifies Repr
      ensures Valid() && Abs() == FP.ChkEmpty(old(Abs()))
    {
      var size := multiLock.GetSize("");
      if size == 0 && |access.items| == 0 {
        if !accessing {
          state := Free;
          var granted := TryDelete();
          return;
        }
        state := Access;
      } else if size != 0 {
        state := Locked;
      }
    }

    method TryAccess() returns (ok: bool)
      requires Valid()
      modifies Repr
      ensures Valid() && Abs() == FP.TryAccess(old(Abs())).0
      ensures ok == FP.TryAccess(old(Abs())).1
    {
      if IsDeleted() {
        return false;
      }
      if accessing {
        return true;
      }
      var item := access.Shift();
      if item.Some? {
        accessing := true;
        holders := holders + multiset{item.value};
        accessGrants := accessGrants + [item.value];
      } else {
        ChkEmpty();
      }
      ok := true;
    }

    method HookAccess(worker: Id, request: string) returns (ok: bool)
      requires Valid()
      modifies Repr
      ensures Valid() && Abs() == FP.HookAccess(old(Abs()), Req(worker, request)).0
      ensures ok == FP.HookAccess(old(Abs()), Req(worker, request)).1
    {
      if IsDeleted() {
        return false;
      }
      access.Push(Req(worker, request));
      ok := TryAccess();
    }

    /** The closure handed to an access callback. */
    method ReleaseAccess(worker: Id, request: string)
      requires Valid()
      modifies Repr
      ensures Valid() && Abs() == FP.ReleaseAccess(old(Abs()), Req(worker, request))
    {
      accessing := false;
      holders := holders - multiset{Req(worker, request)};
      var ok := TryAccess();
    }

    method CleanAccess(worker: Id)
      requires Valid()
      modifies Repr
      ensures Valid() && Abs() == FP.CleanAccess(old(Abs()), worker)
    {
      if worker == "" {
        access.Clean();
      } else {
        var removed := access.Remove(OfWorker(worker));
      }
    }

    method TryDelete() returns (ok: bool)
      requires Valid()
      modifies Repr
      ensures Valid() && Abs() == FP.TryDelete(old(Abs()))
      ensures ok == (old(Abs()).CanBeDeleted() && old(Abs()).del != [])
    {
      if !CanBeDeleted() {
        return false;
      }
      var item := del.Shift();
      if item.Some? {
        if !IsDeleted() {
          state := Deleting;
        }
        unlinking := unlinking + multiset{item.value};
        unlinkGrants := unlinkGrants + [item.value];
        return true;
      }
      ok := false;
    }

    predicate CanBeDeleted()
      reads this
    {
      state.Rank() >= Free.Rank()
    }

    predicate IsDeleted()
      reads this
    {
      state.Rank() > Free.Rank()
    }

    method HookUnlink(worker: Id, request: string)
      requires Valid()
      modifies Repr
      ensures Valid() && Abs() == FP.HookUnlink(old(Abs()), Req(worker, request))
    {
      del.Push(Req(worker, request));
      var granted := TryDelete();
    }

    /** The closure handed to an unlink callback. */
    method ReleaseUnlink(worker: Id, request: string)
      requires Valid()
      modifies Repr
      ensures Valid() && Abs() == FP.ReleaseUnlink(old(Abs()), Req(worker, request))
    {
      state := Deleted;
      unlinking := unlinking - multiset{Req(worker, request)};
      var granted := TryDelete();
    }

    method CleanUnlink(worker: Id)
      requires Valid()
      modifies Repr
      ensures Valid() && Abs() == FP.CleanUnlink(old(Abs()), worker)
    {
      if worker == "" {
        del.Clean();
      } else {
        var removed := del.Remove(OfWorker(worker));
      }
    }
  }
}
