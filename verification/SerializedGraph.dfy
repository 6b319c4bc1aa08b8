/** core/transport/src/serialize: the graphs of which a full copy arrives, described on the heap alone. */
module SerializedGraphs {
  import opened Common
  import opened Serializers

  // ---- The condition on the heap ----

  ghost predicate Reached(heap: Heap, v: Value, a: Address) {
    v.Ref? && Reachable(heap, v.address, a)
  }

  /** The i-th part of the object at a refers to x. */
  predicate RefersAt(heap: Heap, a: Address, i: nat, x: Address) {
    a in heap && i < |heap[a].parts| && heap[a].parts[i] == Ref(x)
  }

  /** No two places in these objects refer to x. */
  ghost predicate AtMostOnce(heap: Heap, objects: iset<Address>, x: Address) {
    forall a, i, b, j :: a in objects && b in objects && RefersAt(heap, a, i, x) && RefersAt(heap, b, j, x) ==>
      a == b && i == j
  }

  ghost function ReachedObjects(heap: Heap, v: Value): iset<Address> {
    iset a | Reached(heap, v, a)
  }

  /** Among the objects that can be reached from v, nothing is referred to from two places, and nothing
      refers back to v. */
  ghost predicate ReferredOnce(heap: Heap, v: Value) {
    forall x :: AtMostOnce(heap, ReachedObjects(heap, v), x) && (v == Ref(x) ==> NowhereIn(heap, ReachedObjects(heap, v), x))
  }

  ghost predicate NowhereIn(heap: Heap, objects: iset<Address>, x: Address) {
    forall a, i :: a in objects ==> !RefersAt(heap, a, i, x)
  }

  ghost predicate ReachedFaithful(heap: Heap, v: Value) {
    forall a :: a in ReachedObjects(heap, v) ==> a in heap && FaithfulShape(heap[a].shape)
  }

  // ---- How often the walk meets an object ----

  function One(b: bool): nat {
    if b then 1 else 0
  }

  function MetCount(visits: seq<Visit>, x: Address): nat {
    if visits == [] then 0
    else MetCount(visits[..|visits| - 1], x) + One(visits[|visits| - 1].address == x)
  }

  /** How many of the values refer to x. */
  function TargetCount(vs: seq<Value>, x: Address): nat {
    if vs == [] then 0
    else TargetCount(vs[..|vs| - 1], x) + One(vs[|vs| - 1] == Ref(x))
  }

  /** How many references to x the object copied at this visit has. */
  function FromVisit(heap: Heap, visit: Visit, x: Address): nat {
    if visit.copied && visit.address in heap then TargetCount(heap[visit.address].parts, x) else 0
  }

  function EdgeCount(heap: Heap, visits: seq<Visit>, x: Address): nat {
    if visits == [] then 0
    else EdgeCount(heap, visits[..|visits| - 1], x) + FromVisit(heap, visits[|visits| - 1], x)
  }

  lemma {:induction false} CountsConcat(heap: Heap, a: seq<Visit>, b: seq<Visit>, x: Address)
    ensures MetCount(a + b, x) == MetCount(a, x) + MetCount(b, x)
    ensures EdgeCount(heap, a + b, x) == EdgeCount(heap, a, x) + EdgeCount(heap, b, x)
  {
    if b == [] {
      assert a + b == a;
    } else {
      CountsConcat(heap, a, b[..|b| - 1], x);
      assert (a + b)[..|a + b| - 1] == a + b[..|b| - 1];
    }
  }

  lemma CountsOne(heap: Heap, visit: Visit, x: Address)
    ensures MetCount([visit], x) == One(visit.address == x)
    ensures EdgeCount(heap, [visit], x) == FromVisit(heap, visit, x)
  {
    assert [visit][..0] == [];
  }

  /** Every visit to x comes from the values themselves or from an object that was copied. */
  predicate Accounted(heap: Heap, targets: nat, visits: seq<Visit>, x: Address) {
    MetCount(visits, x) == targets + EdgeCount(heap, visits, x)
  }

  lemma {:induction false} TraceAccounted(heap: Heap, v: Value, t: Trace, x: Address)
    requires Follows(heap, v, t)
    ensures Accounted(heap, One(v == Ref(x)), Visits(t), x)
    decreases t
  {
    match t
    case Kept(_) =>
    case Again(a) => CountsOne(heap, Visit(a, false), x);
    case Copied(a, _, parts) =>
      TracesAccounted(heap, heap[a].parts, parts, x);
      CountsOne(heap, Visit(a, true), x);
      CountsConcat(heap, [Visit(a, true)], VisitsAll(parts), x);
  }

  lemma {:induction false} TracesAccounted(heap: Heap, vs: seq<Value>, ts: seq<Trace>, x: Address)
    requires FollowAll(heap, vs, ts)
    ensures Accounted(heap, TargetCount(vs, x), VisitsAll(ts), x)
    decreases ts
  {
    if ts != [] {
      var n := |ts| - 1;
      TracesAccounted(heap, vs[..n], ts[..n], x);
      TraceAccounted(heap, vs[n], ts[n], x);
      CountsConcat(heap, VisitsAll(ts[..n]), Visits(ts[n]), x);
    }
  }

  // ---- Counts and places ----

  lemma {:induction false} MetPositive(visits: seq<Visit>, x: Address)
    ensures MetCount(visits, x) > 0 <==> x in Addresses(visits)
  {
    if visits != [] {
      var n := |visits| - 1;
      MetPositive(visits[..n], x);
      SplitLast(visits);
    }
  }

  lemma SplitLast(visits: seq<Visit>)
    requires visits != []
    ensures Addresses(visits) == Addresses(visits[..|visits| - 1]) + {visits[|visits| - 1].address}
  {
    var n := |visits| - 1;
    assert visits == visits[..n] + [visits[n]];
    AddressesConcat(visits[..n], [visits[n]]);
    assert [visits[n]][0].address == visits[n].address;
  }

  lemma MetOnceSnoc(visits: seq<Visit>)
    requires visits != []
    ensures var n := |visits| - 1;
            MetOnce(visits) <==> MetOnce(visits[..n]) && visits[n].address !in Addresses(visits[..n])
  {
    var n := |visits| - 1;
    var init, last := visits[..n], visits[n].address;
    assert forall i :: 0 <= i < n ==> init[i] == visits[i];
    if last in Addresses(init) {
      var i :| 0 <= i < n && init[i].address == last;
      assert visits[i].address == visits[n].address;
    }
  }

  ghost predicate CountsAtMostOne(visits: seq<Visit>) {
    forall x :: MetCount(visits, x) <= 1
  }

  lemma CountsSnoc(visits: seq<Visit>)
    requires visits != []
    ensures var n := |visits| - 1;
            CountsAtMostOne(visits) <==> CountsAtMostOne(visits[..n]) && MetCount(visits[..n], visits[n].address) == 0
  {
    var n := |visits| - 1;
    assert MetCount(visits, visits[n].address) == MetCount(visits[..n], visits[n].address) + 1;
    if CountsAtMostOne(visits) {
      forall x ensures MetCount(visits[..n], x) <= 1 {
        assert MetCount(visits, x) <= 1;
      }
    }
    if CountsAtMostOne(visits[..n]) && MetCount(visits[..n], visits[n].address) == 0 {
      forall x ensures MetCount(visits, x) <= 1 {
        assert MetCount(visits[..n], x) <= 1;
      }
    }
  }

  /** No object is met twice when every count is at most one, and conversely. */
  lemma {:induction false} MetOnceCounts(visits: seq<Visit>)
    ensures MetOnce(visits) <==> CountsAtMostOne(visits)
  {
    if visits == [] {
      assert CountsAtMostOne([]);
    } else {
      var n := |visits| - 1;
      MetOnceCounts(visits[..n]);
      MetPositive(visits[..n], visits[n].address);
      MetOnceSnoc(visits);
      CountsSnoc(visits);
    }
  }

  lemma {:induction false} TargetPositive(vs: seq<Value>, x: Address)
    ensures TargetCount(vs, x) > 0 <==> Ref(x) in vs
  {
    if vs != [] {
      TargetPositive(vs[..|vs| - 1], x);
      assert vs == vs[..|vs| - 1] + [vs[|vs| - 1]];
    }
  }

  lemma {:induction false} TargetAtMostOne(vs: seq<Value>, x: Address)
    ensures TargetCount(vs, x) <= 1 <==> forall i, j :: 0 <= i < j < |vs| ==> !(vs[i] == Ref(x) && vs[j] == Ref(x))
  {
    if vs != [] {
      var n := |vs| - 1;
      TargetAtMostOne(vs[..n], x);
      TargetPositive(vs[..n], x);
      assert forall i :: 0 <= i < n ==> vs[..n][i] == vs[i];
    }
  }

  /** The objects at which the walk has copied something, as a set. */
  ghost function Objects(visits: seq<Visit>): iset<Address> {
    iset a | a in Addresses(visits)
  }

  lemma {:induction false} EdgePositive(heap: Heap, visits: seq<Visit>, x: Address)
    requires CopiedOnFirstVisit({}, visits)
    ensures EdgeCount(heap, visits, x) == 0 <==> NowhereIn(heap, Objects(visits), x)
  {
    if visits != [] {
      var n := |visits| - 1;
      FirstVisitsInit(visits);
      EdgePositive(heap, visits[..n], x);
      SplitLast(visits);
      PlacesOf(heap, visits[n].address, x);
    }
  }

  lemma FirstVisitsInit(visits: seq<Visit>)
    requires visits != [] && CopiedOnFirstVisit({}, visits)
    ensures CopiedOnFirstVisit({}, visits[..|visits| - 1])
    ensures visits[|visits| - 1].copied <==> visits[|visits| - 1].address !in Addresses(visits[..|visits| - 1])
  {
    var n := |visits| - 1;
    assert visits == visits[..n] + [visits[n]];
    FirstVisitsConcat({}, visits[..n], [visits[n]]);
  }

  /** Where the object at a refers to x. */
  lemma PlacesOf(heap: Heap, a: Address, x: Address)
    ensures FromVisit(heap, Visit(a, true), x) == 0 <==> forall i :: !RefersAt(heap, a, i, x)
    ensures FromVisit(heap, Visit(a, true), x) <= 1 <==>
            forall i, j :: RefersAt(heap, a, i, x) && RefersAt(heap, a, j, x) ==> i == j
  {
    if a in heap {
      var parts := heap[a].parts;
      TargetPositive(parts, x);
      TargetAtMostOne(parts, x);
      if i :| 0 <= i < |parts| && parts[i] == Ref(x) {
        assert RefersAt(heap, a, i, x);
      }
      if i, j :| 0 <= i < j < |parts| && parts[i] == Ref(x) && parts[j] == Ref(x) {
        assert RefersAt(heap, a, i, x) && RefersAt(heap, a, j, x);
      }
    }
  }

  lemma {:induction false} EdgeAtMostOne(heap: Heap, visits: seq<Visit>, x: Address)
    requires CopiedOnFirstVisit({}, visits)
    ensures EdgeCount(heap, visits, x) <= 1 <==> AtMostOnce(heap, Objects(visits), x)
  {
    if visits != [] {
      var n := |visits| - 1;
      FirstVisitsInit(visits);
      EdgeAtMostOne(heap, visits[..n], x);
      EdgePositive(heap, visits[..n], x);
      ObjectsSnoc(visits);
      if visits[n].copied {
        EdgeMore(heap, Objects(visits[..n]), EdgeCount(heap, visits[..n], x), visits[n].address, x);
      }
    }
  }

  lemma ObjectsSnoc(visits: seq<Visit>)
    requires visits != [] && CopiedOnFirstVisit({}, visits)
    ensures var init, last := visits[..|visits| - 1], visits[|visits| - 1];
            if last.copied then Objects(visits) == Objects(init) + iset{last.address} && last.address !in Objects(init)
            else Objects(visits) == Objects(init)
  {
    FirstVisitsInit(visits);
    SplitLast(visits);
  }

  lemma EdgeMore(heap: Heap, objects: iset<Address>, edges: nat, a: Address, x: Address)
    requires a !in objects
    requires edges == 0 <==> NowhereIn(heap, objects, x)
    requires edges <= 1 <==> AtMostOnce(heap, objects, x)
    ensures edges + FromVisit(heap, Visit(a, true), x) <= 1 <==> AtMostOnce(heap, objects + iset{a}, x)
  {
    PlacesOf(heap, a, x);
    AtMostOnceMore(heap, objects, a, x);
  }

  lemma AtMostOnceMore(heap: Heap, objects: iset<Address>, a: Address, x: Address)
    requires a !in objects
    ensures AtMostOnce(heap, objects + iset{a}, x) <==>
            && AtMostOnce(heap, objects, x)
            && (forall i, j :: RefersAt(heap, a, i, x) && RefersAt(heap, a, j, x) ==> i == j)
            && (NowhereIn(heap, objects, x) || forall i :: !RefersAt(heap, a, i, x))
  {
  }

  // ---- Both sides ----

  /** No object is met twice exactly when the heap refers to nothing twice. */
  lemma MetOnceIffReferredOnce(heap: Heap, v: Value)
    requires Valid(heap) && Allocated(heap, v)
    ensures MetOnce(Visits(Walk(heap, v, {}).0)) <==> ReferredOnce(heap, v)
  {
    var visits := Visits(Walk(heap, v, {}).0);
    WalkVisits(heap, v, {});
    WalkFollows(heap, v, {});
    MetIsReached(heap, v);
    MetOnceCounts(visits);
    forall x ensures MetCount(visits, x) <= 1 <==>
                     && AtMostOnce(heap, ReachedObjects(heap, v), x)
                     && (v == Ref(x) ==> NowhereIn(heap, ReachedObjects(heap, v), x))
    {
      TraceAccounted(heap, v, Walk(heap, v, {}).0, x);
      EdgeAtMostOne(heap, visits, x);
      EdgePositive(heap, visits, x);
    }
  }

  lemma MetIsReached(heap: Heap, v: Value)
    requires Valid(heap) && Allocated(heap, v)
    ensures Objects(Visits(Walk(heap, v, {}).0)) == ReachedObjects(heap, v)
  {
    if v.Ref? {
      forall a ensures a in Addresses(Visits(Walk(heap, v, {}).0)) <==> Reached(heap, v, a) {
        WalkMeetsReachable(heap, v.address, a);
      }
    }
  }

  // ---- What is changed on the way ----

  ghost predicate CopiedFaithful(heap: Heap, visits: seq<Visit>) {
    forall i :: 0 <= i < |visits| && visits[i].copied ==>
      visits[i].address in heap && FaithfulShape(heap[visits[i].address].shape)
  }

  lemma CopiedFaithfulConcat(heap: Heap, a: seq<Visit>, b: seq<Visit>)
    ensures CopiedFaithful(heap, a + b) <==> CopiedFaithful(heap, a) && CopiedFaithful(heap, b)
  {
    assert forall i :: 0 <= i < |a| ==> (a + b)[i] == a[i];
    assert forall i :: 0 <= i < |b| ==> (a + b)[|a| + i] == b[i];
  }

  lemma {:induction false} CopyFaithfulIff(heap: Heap, v: Value, t: Trace)
    requires Follows(heap, v, t)
    ensures Faithful(Copy(t)) <==> CopiedFaithful(heap, Visits(t))
    decreases t
  {
    match t
    case Kept(_) =>
    case Again(_) =>
    case Copied(a, shape, parts) =>
      CopyAllFaithfulIff(heap, heap[a].parts, parts);
      CopiedFaithfulConcat(heap, [Visit(a, true)], VisitsAll(parts));
      CopiedFaithfulOne(heap, a);
  }

  lemma CopiedFaithfulOne(heap: Heap, a: Address)
    ensures CopiedFaithful(heap, [Visit(a, true)]) <==> a in heap && FaithfulShape(heap[a].shape)
  {
    assert [Visit(a, true)][0] == Visit(a, true);
  }

  predicate AllFaithful(ds: seq<Data>) {
    forall i :: 0 <= i < |ds| ==> Faithful(ds[i])
  }

  lemma AllFaithfulSnoc(ds: seq<Data>, d: Data)
    ensures AllFaithful(ds + [d]) <==> AllFaithful(ds) && Faithful(d)
  {
    assert (ds + [d])[|ds|] == d;
    assert forall i :: 0 <= i < |ds| ==> (ds + [d])[i] == ds[i];
  }

  lemma {:induction false} CopyAllFaithfulIff(heap: Heap, vs: seq<Value>, ts: seq<Trace>)
    requires FollowAll(heap, vs, ts)
    ensures AllFaithful(CopyAll(ts)) <==> CopiedFaithful(heap, VisitsAll(ts))
    decreases ts
  {
    if ts != [] {
      var n := |ts| - 1;
      CopyAllFaithfulIff(heap, vs[..n], ts[..n]);
      CopyFaithfulIff(heap, vs[n], ts[n]);
      CopiedFaithfulConcat(heap, VisitsAll(ts[..n]), Visits(ts[n]));
      AllFaithfulSnoc(CopyAll(ts[..n]), Copy(ts[n]));
    }
  }

  lemma {:induction false} EveryObjectCopied(visits: seq<Visit>, a: Address)
    requires CopiedOnFirstVisit({}, visits) && a in Addresses(visits)
    ensures exists i :: 0 <= i < |visits| && visits[i] == Visit(a, true)
  {
    var n := |visits| - 1;
    FirstVisitsInit(visits);
    SplitLast(visits);
    if a in Addresses(visits[..n]) {
      EveryObjectCopied(visits[..n], a);
      var i :| 0 <= i < n && visits[..n][i] == Visit(a, true);
      assert visits[i] == Visit(a, true);
    } else {
      assert visits[n] == Visit(a, true);
    }
  }

  lemma FaithfulIffReached(heap: Heap, v: Value)
    requires Valid(heap) && Allocated(heap, v)
    ensures Faithful(Copy(Walk(heap, v, {}).0)) <==> ReachedFaithful(heap, v)
  {
    var visits := Visits(Walk(heap, v, {}).0);
    WalkVisits(heap, v, {});
    WalkFollows(heap, v, {});
    CopyFaithfulIff(heap, v, Walk(heap, v, {}).0);
    MetIsReached(heap, v);
    if CopiedFaithful(heap, visits) {
      forall a | a in ReachedObjects(heap, v) ensures a in heap && FaithfulShape(heap[a].shape) {
        assert a in Objects(visits);
        EveryObjectCopied(visits, a);
      }
    }
    if ReachedFaithful(heap, v) {
      forall i | 0 <= i < |visits| && visits[i].copied
        ensures visits[i].address in heap && FaithfulShape(heap[visits[i].address].shape)
      {
        assert visits[i].address in Objects(visits);
      }
    }
  }

  /** Any graph of values, cyclic or not, can be sent. A full copy of it arrives exactly when, among the
      objects that can be reached, nothing is referred to twice and nothing refers back to the root,
      none has an own `__proto__` key, and every error is a standard one with a stack. */
  lemma DeepCopyIff(newStack: string, heap: Heap, v: Value)
    requires Valid(heap) && Allocated(heap, v)
    ensures Decode(newStack, Serialize(heap, v)).Some?
    ensures Unfolds(heap, v, Decode(newStack, Serialize(heap, v)).value)
            <==> ReferredOnce(heap, v) && ReachedFaithful(heap, v)
  {
    FullCopyIff(newStack, heap, v);
    MetOnceIffReferredOnce(heap, v);
    FaithfulIffReached(heap, v);
  }

  /** The object `{a: itself}`. */
  const SELF: Heap := map[0 := Node(Object(["a"]), [Ref(0)])]

  lemma SelfWalk()
    ensures Valid(SELF) && Walk(SELF, Ref(0), {}).0 == Copied(0, Object(["a"]), [Again(0)])
  {
    var parts := SELF[0].parts;
    assert parts[..0] == [];
    assert Walk(SELF, Ref(0), {0}) == (Again(0), {0});
    assert WalkAll(SELF, parts[..0], {0}) == ([], {0});
    assert WalkAll(SELF, parts, {0}).0 == [Again(0)];
  }

  lemma MarkReceived(newStack: string)
    ensures var d := Compound(Object(["a"]), [Quoted(CIRCULAR)]);
            Fitting(d) && Received(newStack, d) == d && CopyAll([Again(0)]) == d.parts
  {
    var d := Compound(Object(["a"]), [Quoted(CIRCULAR)]);
    assert [Again(0)][..0] == [] && d.parts[..0] == [];
    ReceivedSameIff(newStack, d);
  }

  /** An object that refers to itself arrives with a mark in place of the reference. */
  lemma SelfReferenceIsCut(newStack: string)
    ensures Valid(SELF) && Decode(newStack, Serialize(SELF, Ref(0))) == Some(Compound(Object(["a"]), [Quoted(CIRCULAR)]))
    ensures !ReferredOnce(SELF, Ref(0))
  {
    SelfWalk();
    MarkReceived(newStack);
    DecodeEncode(newStack, Compound(Object(["a"]), [Quoted(CIRCULAR)]));
    WalkVisits(SELF, Ref(0), {});
    MetOnceIffReferredOnce(SELF, Ref(0));
    var visits := Visits(Copied(0, Object(["a"]), [Again(0)]));
    SelfVisits();
    assert visits[0].address == visits[1].address;
  }

  lemma SelfVisits()
    ensures Visits(Copied(0, Object(["a"]), [Again(0)])) == [Visit(0, true), Visit(0, false)]
  {
    assert [Again(0)][..0] == [];
    assert VisitsAll([Again(0)]) == [Visit(0, false)];
  }
}
