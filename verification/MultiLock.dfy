/** core/utils/src/multi-lock.ts: counted locks for many ids with a cached total. */
module MultiLocks {

  type Id = string

  /** A limit of 0 means "no limit"; a negative limit never lets anything in. */
  predicate HasRoom(limit: int, held: multiset<Id>) {
    limit == 0 || |held| < limit
  }

  predicate WithinLimit(limit: int, held: multiset<Id>) {
    (limit > 0 ==> |held| <= limit) && (limit < 0 ==> |held| == 0)
  }

  /** The locks left after cleaning one id, or all of them when the id is the empty string. */
  function Cleaned(held: multiset<Id>, id: Id): (r: multiset<Id>) {
    if id == "" then multiset{} else held[id := 0]
  }

  class MultiLock {
    var lockHash: map<Id, nat>
    var lockLength: int
    const lockLimit: int

    /** The held locks with their multiplicities: |Held| is the sum of all stored counts. */
    ghost var Held: multiset<Id>

    ghost predicate Valid()
      reads this
    {
      && (forall id :: Held[id] == if id in lockHash then lockHash[id] else 0)
      && (forall id :: id in lockHash ==> lockHash[id] > 0)
      && lockLength == |Held|
      && WithinLimit(lockLimit, Held)
    }

    constructor (limit: int)
      ensures Valid() && Held == multiset{} && lockLimit == limit
    {
      lockHash := map[];
      lockLength := 0;
      lockLimit := limit;
      Held := multiset{};
    }

    method Acquire(id: Id) returns (ok: bool)
      requires Valid()
      modifies this
      ensures Valid()
      ensures ok == HasRoom(lockLimit, old(Held))
      ensures ok <==> lockLimit == 0 || |old(Held)| < lockLimit
      ensures Held == if ok then old(Held) + multiset{id} else old(Held)
    {
      if lockLimit != 0 && lockLength >= lockLimit {
        return false;
      }
      var count := if id in lockHash then lockHash[id] else 0;
      lockHash := lockHash[id := count + 1];
      lockLength := lockLength + 1;
      Held := Held + multiset{id};
      ok := true;
    }

    method Release(id: Id) returns (ok: bool)
      requires Valid()
      modifies this
      ensures Valid()
      ensures ok == (id in old(Held))
      ensures Held == old(Held) - multiset{id}
    {
      if id !in lockHash {
        return false;
      }
      var count := lockHash[id];
      if count == 1 {
        lockHash := lockHash - {id};
      } else {
        lockHash := lockHash[id := count - 1];
      }
      lockLength := lockLength - 1;
      Held := Held - multiset{id};
      ok := true;
    }

    method Clean(id: Id)
      requires Valid()
      modifies this
      ensures Valid()
      ensures Held == Cleaned(old(Held), id)
      ensures forall other: Id :: Held[other] == if id == "" || other == id then 0 else old(Held)[other]
    {
      if id != "" {
        var count := if id in lockHash then lockHash[id] else 0;
        lockHash := lockHash - {id};
        lockLength := lockLength - count;
      } else {
        lockHash := map[];
        lockLength := 0;
      }
      Held := Cleaned(Held, id);
    }

    /** The count of one id, or the total when the id is the empty string. */
    method GetSize(id: Id) returns (n: int)
      requires Valid()
      ensures n == if id == "" then |Held| else Held[id]
    {
      if id != "" {
        return if id in lockHash then lockHash[id] else 0;
      }
      n := lockLength;
    }
  }
}
