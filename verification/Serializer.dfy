/** core/transport/src/serialize: turning any graph of JavaScript values into a message and back.

    A heap maps addresses to objects, so sharing and cycles are ordinary references. A message and a
    received value are plain trees (`Data`). An object's keys are its own enumerable keys in the order
    a `for…in` loop meets them. Functions and buffers are not part of this model. */
module Serializers {
  import opened Common

  type Address = nat

  /** What `isAcceptable` lets through unchanged. */
  datatype Scalar = Undefined | Null | Boolean(b: bool) | Number(n: real) | Text(s: string)

  /** An object without the values it refers to. */
  datatype Shape =
    | Array
    | Object(keys: seq<string>)
    | Error(name: string, message: string, stack: Option<string>)
    | Date(time: real)
  {
    predicate Fits(count: nat) {
      match this
      case Array => true
      case Object(keys) => |keys| == count
      case Error(_, _, _) => count == 0
      case Date(_) => count == 0
    }
  }

  datatype Value = Plain(scalar: Scalar) | Ref(address: Address)

  datatype Node = Node(shape: Shape, parts: seq<Value>)

  type Heap = map<Address, Node>

  datatype Data = Leaf(scalar: Scalar) | Compound(shape: Shape, parts: seq<Data>)

  predicate Allocated(heap: Heap, v: Value) {
    v.Ref? ==> v.address in heap
  }

  predicate AllAllocated(heap: Heap, vs: seq<Value>) {
    forall v :: v in vs ==> Allocated(heap, v)
  }

  predicate Valid(heap: Heap) {
    forall a :: a in heap ==> heap[a].shape.Fits(|heap[a].parts|) && AllAllocated(heap, heap[a].parts)
  }

  // ---- The walk over the graph ----

  /** One run of the encoder over the graph: every object is either copied or, when it has been met
      before, only marked. */
  datatype Trace = Kept(scalar: Scalar) | Again(address: Address) | Copied(address: Address, shape: Shape, parts: seq<Trace>)

  /** `innerSerialize`, with the set of processed structures threaded through. */
  function Walk(heap: Heap, v: Value, visited: set<Address>): (r: (Trace, set<Address>))
    requires Valid(heap) && Allocated(heap, v)
    ensures visited <= r.1
    decreases heap.Keys - visited, 0
  {
    match v
    case Plain(scalar) => (Kept(scalar), visited)
    case Ref(a) =>
      if a in visited then (Again(a), visited)
      else
        assert a in heap.Keys - visited && a !in heap.Keys - (visited + {a});
        var (parts, seen) := WalkAll(heap, heap[a].parts, visited + {a});
        (Copied(a, heap[a].shape, parts), seen)
  }

  function WalkAll(heap: Heap, vs: seq<Value>, visited: set<Address>): (r: (seq<Trace>, set<Address>))
    requires Valid(heap) && AllAllocated(heap, vs)
    ensures visited <= r.1 && |r.0| == |vs|
    decreases heap.Keys - visited, |vs|
  {
    if vs == [] then ([], visited)
    else
      var n := |vs| - 1;
      var (done, seen) := WalkAll(heap, vs[..n], visited);
      var (last, seen') := Walk(heap, vs[n], seen);
      (done + [last], seen')
  }

  // ---- Each object is copied once, at its first visit ----

  /** A reference met on the walk, and whether its object was copied there. */
  datatype Visit = Visit(address: Address, copied: bool)

  /** The references in the order in which the depth-first walk meets them. */
  function Visits(t: Trace): seq<Visit> {
    match t
    case Kept(_) => []
    case Again(a) => [Visit(a, false)]
    case Copied(a, _, parts) => [Visit(a, true)] + VisitsAll(parts)
  }

  function VisitsAll(ts: seq<Trace>): seq<Visit> {
    if ts == [] then [] else VisitsAll(ts[..|ts| - 1]) + Visits(ts[|ts| - 1])
  }

  function Addresses(visits: seq<Visit>): set<Address> {
    set i | 0 <= i < |visits| :: visits[i].address
  }

  /** A reference is copied exactly when its object has not been met earlier. */
  ghost predicate CopiedOnFirstVisit(visited: set<Address>, visits: seq<Visit>) {
    forall i :: 0 <= i < |visits| ==>
      (visits[i].copied <==> visits[i].address !in visited + Addresses(visits[..i]))
  }

  /** The trace has the shape of the graph below `v`, cut off at the marks. */
  ghost predicate Follows(heap: Heap, v: Value, t: Trace)
    decreases t
  {
    match t
    case Kept(scalar) => v == Plain(scalar)
    case Again(a) => v == Ref(a)
    case Copied(a, shape, parts) =>
      v == Ref(a) && a in heap && heap[a].shape == shape && FollowAll(heap, heap[a].parts, parts)
  }

  ghost predicate FollowAll(heap: Heap, vs: seq<Value>, ts: seq<Trace>)
    decreases ts
  {
    && |vs| == |ts|
    && (ts != [] ==>
      && FollowAll(heap, vs[..|ts| - 1], ts[..|ts| - 1])
      && Follows(heap, vs[|ts| - 1], ts[|ts| - 1]))
  }

  lemma AddressesConcat(a: seq<Visit>, b: seq<Visit>)
    ensures Addresses(a + b) == Addresses(a) + Addresses(b)
  {
    forall x | x in Addresses(b) ensures x in Addresses(a + b) {
      var i :| 0 <= i < |b| && b[i].address == x;
      assert (a + b)[|a| + i].address == x;
    }
    forall x | x in Addresses(a) ensures x in Addresses(a + b) {
      var i :| 0 <= i < |a| && a[i].address == x;
      assert (a + b)[i].address == x;
    }
  }

  lemma FirstVisitsConcat(visited: set<Address>, a: seq<Visit>, b: seq<Visit>)
    ensures CopiedOnFirstVisit(visited, a + b) <==>
            CopiedOnFirstVisit(visited, a) && CopiedOnFirstVisit(visited + Addresses(a), b)
  {
    forall i | 0 <= i < |a| ensures (a + b)[..i] == a[..i] && (a + b)[i] == a[i] {
    }
    forall i | 0 <= i < |b| ensures Addresses((a + b)[..|a| + i]) == Addresses(a) + Addresses(b[..i])
                                    && (a + b)[|a| + i] == b[i] {
      assert (a + b)[..|a| + i] == a + b[..i];
      AddressesConcat(a, b[..i]);
    }
    if CopiedOnFirstVisit(visited, a + b) {
      forall i | 0 <= i < |b|
        ensures b[i].copied <==> b[i].address !in visited + Addresses(a) + Addresses(b[..i])
      {
        assert (a + b)[|a| + i] == b[i];
      }
    }
    if CopiedOnFirstVisit(visited, a) && CopiedOnFirstVisit(visited + Addresses(a), b) {
      forall i | 0 <= i < |a + b|
        ensures (a + b)[i].copied <==> (a + b)[i].address !in visited + Addresses((a + b)[..i])
      {
        if i >= |a| {
          assert (a + b)[|a| + (i - |a|)] == b[i - |a|];
        }
      }
    }
  }

  lemma VisitsSnoc(visited: set<Address>, done: seq<Trace>, last: Trace)
    ensures VisitsAll(done + [last]) == VisitsAll(done) + Visits(last)
    ensures Addresses(VisitsAll(done + [last])) == Addresses(VisitsAll(done)) + Addresses(Visits(last))
    ensures CopiedOnFirstVisit(visited, VisitsAll(done + [last])) <==>
            CopiedOnFirstVisit(visited, VisitsAll(done))
            && CopiedOnFirstVisit(visited + Addresses(VisitsAll(done)), Visits(last))
  {
    assert (done + [last])[..|done|] == done;
    FirstVisitsConcat(visited, VisitsAll(done), Visits(last));
    AddressesConcat(VisitsAll(done), Visits(last));
  }

  lemma {:induction false} WalkFollows(heap: Heap, v: Value, visited: set<Address>)
    requires Valid(heap) && Allocated(heap, v)
    ensures Follows(heap, v, Walk(heap, v, visited).0)
    decreases heap.Keys - visited, 0
  {
    if v.Ref? && v.address !in visited {
      var a := v.address;
      assert a in heap.Keys - visited && a !in heap.Keys - (visited + {a});
      WalkAllFollow(heap, heap[a].parts, visited + {a});
    }
  }

  lemma {:induction false} WalkAllFollow(heap: Heap, vs: seq<Value>, visited: set<Address>)
    requires Valid(heap) && AllAllocated(heap, vs)
    ensures FollowAll(heap, vs, WalkAll(heap, vs, visited).0)
    decreases heap.Keys - visited, |vs|
  {
    if vs != [] {
      var n := |vs| - 1;
      var (done, seen) := WalkAll(heap, vs[..n], visited);
      var last := Walk(heap, vs[n], seen).0;
      WalkAllFollow(heap, vs[..n], visited);
      WalkFollows(heap, vs[n], seen);
      assert (done + [last])[..n] == done;
    }
  }

  lemma {:induction false} WalkVisits(heap: Heap, v: Value, visited: set<Address>)
    requires Valid(heap) && Allocated(heap, v)
    ensures CopiedOnFirstVisit(visited, Visits(Walk(heap, v, visited).0))
    ensures Walk(heap, v, visited).1 == visited + Addresses(Visits(Walk(heap, v, visited).0))
    decreases heap.Keys - visited, 0
  {
    if v.Ref? && v.address !in visited {
      var a := v.address;
      assert a in heap.Keys - visited && a !in heap.Keys - (visited + {a});
      WalkAllVisits(heap, heap[a].parts, visited + {a});
      var first, rest := [Visit(a, true)], VisitsAll(WalkAll(heap, heap[a].parts, visited + {a}).0);
      assert Addresses(first) == {a} by { assert first[0].address == a; }
      FirstVisitsConcat(visited, first, rest);
      AddressesConcat(first, rest);
    }
  }

  lemma {:induction false} WalkAllVisits(heap: Heap, vs: seq<Value>, visited: set<Address>)
    requires Valid(heap) && AllAllocated(heap, vs)
    ensures CopiedOnFirstVisit(visited, VisitsAll(WalkAll(heap, vs, visited).0))
    ensures WalkAll(heap, vs, visited).1 == visited + Addresses(VisitsAll(WalkAll(heap, vs, visited).0))
    decreases heap.Keys - visited, |vs|
  {
    if vs != [] {
      var n := |vs| - 1;
      var (done, seen) := WalkAll(heap, vs[..n], visited);
      var last := Walk(heap, vs[n], seen).0;
      WalkAllVisits(heap, vs[..n], visited);
      WalkVisits(heap, vs[n], seen);
      VisitsSnoc(visited, done, last);
    }
  }

  /** The two properties above leave no choice: the encoder's walk is the only trace that follows the
      graph and copies every object at its first visit and nowhere else. */
  lemma {:induction false} WalkUnique(heap: Heap, v: Value, visited: set<Address>, t: Trace)
    requires Valid(heap) && Allocated(heap, v)
    requires Follows(heap, v, t) && CopiedOnFirstVisit(visited, Visits(t))
    ensures t == Walk(heap, v, visited).0
    decreases t
  {
    match t
    case Kept(_) =>
    case Again(a) =>
      assert !Visits(t)[0].copied && Addresses(Visits(t)[..0]) == {};
    case Copied(a, _, parts) =>
      var first := [Visit(a, true)];
      assert Addresses(first) == {a} by { assert first[0].address == a; }
      FirstVisitsConcat(visited, first, VisitsAll(parts));
      assert first[0].copied && Addresses(first[..0]) == {};
      WalkAllUnique(heap, heap[a].parts, visited + {a}, parts);
  }

  lemma {:induction false} WalkAllUnique(heap: Heap, vs: seq<Value>, visited: set<Address>, ts: seq<Trace>)
    requires Valid(heap) && AllAllocated(heap, vs)
    requires FollowAll(heap, vs, ts) && CopiedOnFirstVisit(visited, VisitsAll(ts))
    ensures ts == WalkAll(heap, vs, visited).0
    decreases ts
  {
    if ts != [] {
      var n := |ts| - 1;
      assert ts == ts[..n] + [ts[n]];
      VisitsSnoc(visited, ts[..n], ts[n]);
      WalkAllUnique(heap, vs[..n], visited, ts[..n]);
      WalkAllVisits(heap, vs[..n], visited);
      WalkUnique(heap, vs[n], visited + Addresses(VisitsAll(ts[..n])), ts[n]);
    }
  }

  // ---- Exactly the reachable objects are met ----

  ghost predicate IsPath(heap: Heap, path: seq<Address>) {
    && path != []
    && (forall i :: 0 <= i < |path| ==> path[i] in heap)
    && forall i :: 0 < i < |path| ==> Ref(path[i]) in heap[path[i - 1]].parts
  }

  ghost predicate Reachable(heap: Heap, from: Address, to: Address) {
    exists path :: IsPath(heap, path) && path[0] == from && path[|path| - 1] == to
  }

  /** Everything visited since `visited` has all its references visited. */
  ghost predicate ClosedSince(heap: Heap, visited: set<Address>, seen: set<Address>) {
    forall a :: a in seen - visited ==> a in heap && forall b :: Ref(b) in heap[a].parts ==> b in seen
  }

  lemma {:induction false} WalkCloses(heap: Heap, v: Value, visited: set<Address>)
    requires Valid(heap) && Allocated(heap, v)
    ensures ClosedSince(heap, visited, Walk(heap, v, visited).1)
    ensures v.Ref? ==> v.address in Walk(heap, v, visited).1
    decreases heap.Keys - visited, 0
  {
    if v.Ref? && v.address !in visited {
      var a := v.address;
      assert a in heap.Keys - visited && a !in heap.Keys - (visited + {a});
      WalkAllCloses(heap, heap[a].parts, visited + {a});
    }
  }

  lemma {:induction false} WalkAllCloses(heap: Heap, vs: seq<Value>, visited: set<Address>)
    requires Valid(heap) && AllAllocated(heap, vs)
    ensures ClosedSince(heap, visited, WalkAll(heap, vs, visited).1)
    ensures forall b :: Ref(b) in vs ==> b in WalkAll(heap, vs, visited).1
    decreases heap.Keys - visited, |vs|
  {
    if vs != [] {
      var n := |vs| - 1;
      var seen := WalkAll(heap, vs[..n], visited).1;
      WalkAllCloses(heap, vs[..n], visited);
      WalkCloses(heap, vs[n], seen);
      forall b | Ref(b) in vs ensures b in WalkAll(heap, vs, visited).1 {
        assert Ref(b) in vs[..n] || Ref(b) == vs[n];
      }
    }
  }

  lemma {:induction false} PathStaysInside(heap: Heap, seen: set<Address>, path: seq<Address>)
    requires IsPath(heap, path) && ClosedSince(heap, {}, seen) && path[0] in seen
    ensures path[|path| - 1] in seen
  {
    if |path| > 1 {
      var n := |path| - 1;
      assert path[..n][0] == path[0] && IsPath(heap, path[..n]);
      PathStaysInside(heap, seen, path[..n]);
    }
  }

  ghost predicate AllReachable(heap: Heap, from: Address, targets: set<Address>) {
    forall a :: a in targets ==> Reachable(heap, from, a)
  }

  lemma ReachableStep(heap: Heap, from: Address, a: Address, b: Address)
    requires Valid(heap) && Reachable(heap, from, a) && a in heap && Ref(b) in heap[a].parts
    ensures Reachable(heap, from, b)
  {
    var path :| IsPath(heap, path) && path[0] == from && path[|path| - 1] == a;
    var longer := path + [b];
    assert Allocated(heap, Ref(b));
    assert IsPath(heap, longer) && longer[0] == from && longer[|longer| - 1] == b;
  }

  lemma {:induction false} WalkReaches(heap: Heap, from: Address, v: Value, visited: set<Address>)
    requires Valid(heap) && Allocated(heap, v)
    requires AllReachable(heap, from, visited) && (v.Ref? ==> Reachable(heap, from, v.address))
    ensures AllReachable(heap, from, Walk(heap, v, visited).1)
    decreases heap.Keys - visited, 0
  {
    if v.Ref? && v.address !in visited {
      var a := v.address;
      assert a in heap.Keys - visited && a !in heap.Keys - (visited + {a});
      forall b | Ref(b) in heap[a].parts ensures Reachable(heap, from, b) {
        ReachableStep(heap, from, a, b);
      }
      WalkAllReaches(heap, from, heap[a].parts, visited + {a});
    }
  }

  lemma {:induction false} WalkAllReaches(heap: Heap, from: Address, vs: seq<Value>, visited: set<Address>)
    requires Valid(heap) && AllAllocated(heap, vs)
    requires AllReachable(heap, from, visited) && forall b :: Ref(b) in vs ==> Reachable(heap, from, b)
    ensures AllReachable(heap, from, WalkAll(heap, vs, visited).1)
    decreases heap.Keys - visited, |vs|
  {
    if vs != [] {
      var n := |vs| - 1;
      WalkAllReaches(heap, from, vs[..n], visited);
      WalkReaches(heap, from, vs[n], WalkAll(heap, vs[..n], visited).1);
    }
  }

  /** Serializing the object at `a` meets exactly the objects that can be reached from it. */
  lemma WalkMeetsReachable(heap: Heap, a: Address, b: Address)
    requires Valid(heap) && a in heap
    ensures b in Addresses(Visits(Walk(heap, Ref(a), {}).0)) <==> Reachable(heap, a, b)
  {
    var seen := Walk(heap, Ref(a), {}).1;
    WalkVisits(heap, Ref(a), {});
    WalkCloses(heap, Ref(a), {});
    assert IsPath(heap, [a]) && [a][0] == a && [a][|[a]| - 1] == a;
    WalkReaches(heap, a, Ref(a), {});
    if Reachable(heap, a, b) {
      var path :| IsPath(heap, path) && path[0] == a && path[|path| - 1] == b;
      PathStaysInside(heap, seen, path);
    }
  }

  // ---- Messages ----

  const CIRCULAR := "(Circular)"
  const PROTO := "__proto__"

  function Quoted(s: string): Data {
    Leaf(Text(s))
  }

  /** Every object has one value for each key, and only arrays and plain objects have parts. */
  predicate Fitting(d: Data) {
    d.Compound? ==> d.shape.Fits(|d.parts|) && AllFitting(d.parts)
  }

  predicate AllFitting(ds: seq<Data>) {
    forall i :: 0 <= i < |ds| ==> Fitting(ds[i])
  }

  /** The value that a trace copies, with the marks in place of the objects met again. */
  function Copy(t: Trace): Data {
    match t
    case Kept(scalar) => Leaf(scalar)
    case Again(_) => Quoted(CIRCULAR)
    case Copied(_, shape, parts) => Compound(shape, CopyAll(parts))
  }

  function CopyAll(ts: seq<Trace>): (r: seq<Data>)
    ensures |r| == |ts|
  {
    if ts == [] then [] else CopyAll(ts[..|ts| - 1]) + [Copy(ts[|ts| - 1])]
  }

  /** What `dictionary[key] = value` makes of a plain object that has no such key yet: assigning to
      `__proto__` sets the prototype and adds no key. */
  function WithKey(d: Data, key: string, value: Data): (r: Data)
    requires IsPlain(d)
    ensures IsPlain(r)
  {
    if key == PROTO then d else Compound(Object(d.shape.keys + [key]), d.parts + [value])
  }

  predicate IsPlain(d: Data) {
    d.Compound? && d.shape.Object? && |d.shape.keys| == |d.parts|
  }

  function Filled(keys: seq<string>, values: seq<Data>): (r: Data)
    requires |keys| == |values|
    ensures IsPlain(r)
  {
    if keys == [] then Compound(Object([]), [])
    else
      var n := |keys| - 1;
      WithKey(Filled(keys[..n], values[..n]), keys[n], values[n])
  }

  /** The message sent for a tree of values. */
  function Encode(d: Data): Data
    requires Fitting(d)
    decreases d
  {
    match d
    case Leaf(_) => d
    case Compound(Array, parts) =>
      Compound(Object(["$key", "values"]), [Quoted("Array"), Compound(Array, EncodeAll(parts))])
    case Compound(Object(keys), parts) =>
      Compound(Object(["$key", "dictionary"]), [Quoted("Object"), Filled(keys, EncodeAll(parts))])
    case Compound(Error(name, message, stack), _) => ErrorMessage(name, message, stack)
    case Compound(Date(time), _) => Compound(Object(["$key", "data"]), [Quoted("Date"), Leaf(Number(time))])
  }

  function EncodeAll(ds: seq<Data>): (r: seq<Data>)
    requires AllFitting(ds)
    ensures |r| == |ds|
    decreases ds
  {
    if ds == [] then [] else EncodeAll(ds[..|ds| - 1]) + [Encode(ds[|ds| - 1])]
  }

  function ErrorMessage(name: string, message: string, stack: Option<string>): Data {
    Compound(Object(["$key", "type", "message", "stack"]),
             [Quoted("Error"), Quoted(name), Quoted(message), if stack.Some? then Quoted(stack.value) else Leaf(Undefined)])
  }

  /** The value under a key of a plain object. */
  function Entry(keys: seq<string>, values: seq<Data>, key: string): (r: Option<Data>)
    requires |keys| == |values|
    ensures r.Some? ==> r.value in values
  {
    if keys == [] then None
    else
      var n := |keys| - 1;
      if keys[n] == key then Some(values[n]) else Entry(keys[..n], values[..n], key)
  }

  /** `deserialize`. None: a field of the message does not have the type declared for its `$key`, or it
      is the message of a function or a buffer. `newStack` is the stack a newly constructed error gets. */
  function Decode(newStack: string, d: Data): Option<Data>
    requires Fitting(d)
    decreases d
  {
    match d
    case Leaf(_) => Some(d)
    case Compound(Object(keys), parts) =>
      assert AllFitting(parts);
      var kind := Entry(keys, parts, "$key");
      if kind == Some(Quoted("Object")) then
        var dictionary := Entry(keys, parts, "dictionary");
        if dictionary.Some? && IsPlain(dictionary.value) then
          var values := DecodeAll(newStack, dictionary.value.parts);
          if values.Some? then Some(Filled(dictionary.value.shape.keys, values.value)) else None
        else None
      else if kind == Some(Quoted("Array")) then
        var values := Entry(keys, parts, "values");
        if values.Some? && values.value.Compound? && values.value.shape.Array? then
          var decoded := DecodeAll(newStack, values.value.parts);
          if decoded.Some? then Some(Compound(Array, decoded.value)) else None
        else None
      else if kind == Some(Quoted("Error")) then
        DecodeError(newStack, Entry(keys, parts, "type"), Entry(keys, parts, "message"), Entry(keys, parts, "stack"))
      else if kind == Some(Quoted("Date")) then
        DecodeDate(Entry(keys, parts, "data"))
      else if kind == Some(Quoted("Function")) || kind == Some(Quoted("Buffer")) then None
      else Some(d)
    case Compound(_, _) => Some(d)
  }

  function DecodeAll(newStack: string, ds: seq<Data>): (r: Option<seq<Data>>)
    requires AllFitting(ds)
    ensures r.Some? ==> |r.value| == |ds|
    decreases ds
  {
    if ds == [] then Some([])
    else
      var init, last := DecodeAll(newStack, ds[..|ds| - 1]), Decode(newStack, ds[|ds| - 1]);
      if init.Some? && last.Some? then Some(init.value + [last.value]) else None
  }

  const STANDARD_ERRORS := {"Error", "EvalError", "RangeError", "ReferenceError", "SyntaxError", "TypeError", "URIError"}

  function DecodeError(newStack: string, name: Option<Data>, message: Option<Data>, stack: Option<Data>): Option<Data> {
    match (name, message)
    case (Some(Leaf(Text(n))), Some(Leaf(Text(m)))) =>
      var constructed := if n in STANDARD_ERRORS then n else "Error";
      var trace := if stack.Some? && stack.value.Leaf? && stack.value.scalar.Text? then stack.value.scalar.s else newStack;
      Some(Compound(Error(constructed, m, Some(trace)), []))
    case (_, _) => None
  }

  function DecodeDate(data: Option<Data>): Option<Data> {
    match data
    case Some(Leaf(Number(time))) => Some(Compound(Date(time), []))
    case _ => None
  }

  // ---- What arrives ----

  /** The tree that arrives when `d` is sent: own `__proto__` keys are lost, errors of other classes
      become plain errors, and an error without a stack gets a new one. */
  function Received(newStack: string, d: Data): (r: Data)
    requires Fitting(d)
    decreases d
  {
    match d
    case Leaf(_) => d
    case Compound(Array, parts) => Compound(Array, ReceivedAll(newStack, parts))
    case Compound(Object(keys), parts) => Filled(keys, ReceivedAll(newStack, parts))
    case Compound(Error(name, message, stack), parts) =>
      Compound(Error(if name in STANDARD_ERRORS then name else "Error", message,
                     Some(if stack.Some? then stack.value else newStack)), [])
    case Compound(Date(_), _) => d
  }

  function ReceivedAll(newStack: string, ds: seq<Data>): (r: seq<Data>)
    requires AllFitting(ds)
    ensures |r| == |ds|
    decreases ds
  {
    if ds == [] then [] else ReceivedAll(newStack, ds[..|ds| - 1]) + [Received(newStack, ds[|ds| - 1])]
  }

  /** No own `__proto__` key, and if it is an error, a standard one with a stack. */
  predicate FaithfulShape(shape: Shape) {
    && (shape.Object? ==> PROTO !in shape.keys)
    && (shape.Error? ==> shape.name in STANDARD_ERRORS && shape.stack.Some?)
  }

  /** Nothing in `d` is lost on the way. */
  predicate Faithful(d: Data)
    decreases d
  {
    match d
    case Leaf(_) => true
    case Compound(shape, parts) =>
      FaithfulShape(shape) && forall i :: 0 <= i < |parts| ==> Faithful(parts[i])
  }

  lemma FilledFits(keys: seq<string>, values: seq<Data>)
    requires |keys| == |values| && AllFitting(values)
    ensures Fitting(Filled(keys, values))
  {
    if keys != [] {
      FilledFits(keys[..|keys| - 1], values[..|keys| - 1]);
    }
  }

  lemma {:induction false} EncodeFits(d: Data)
    requires Fitting(d)
    ensures Fitting(Encode(d))
    decreases d
  {
    match d
    case Leaf(_) =>
    case Compound(Array, parts) => EncodeAllFits(parts);
    case Compound(Object(keys), parts) =>
      EncodeAllFits(parts);
      FilledFits(keys, EncodeAll(parts));
    case Compound(_, _) =>
  }

  lemma {:induction false} EncodeAllFits(ds: seq<Data>)
    requires AllFitting(ds)
    ensures AllFitting(EncodeAll(ds))
    decreases ds
  {
    if ds != [] {
      EncodeAllFits(ds[..|ds| - 1]);
      EncodeFits(ds[|ds| - 1]);
    }
  }

  /** Decoding the values of a dictionary and filling commute. */
  lemma {:induction false} DecodeFilled(newStack: string, keys: seq<string>, values: seq<Data>)
    requires |keys| == |values| && AllFitting(values) && DecodeAll(newStack, values).Some?
    ensures AllFitting(Filled(keys, values).parts)
    ensures var f := Filled(keys, values);
            DecodeAll(newStack, f.parts).Some?
            && Filled(f.shape.keys, DecodeAll(newStack, f.parts).value) == Filled(keys, DecodeAll(newStack, values).value)
  {
    FilledFits(keys, values);
    if keys != [] {
      var n := |keys| - 1;
      DecodeFilled(newStack, keys[..n], values[..n]);
      var f, g := Filled(keys[..n], values[..n]), Filled(keys, values);
      if keys[n] != PROTO {
        assert g.parts[..|f.parts|] == f.parts && g.shape.keys[..|f.parts|] == f.shape.keys;
      }
    }
  }

  lemma DecodeObjectMessage(newStack: string, dictionary: Data)
    requires Fitting(dictionary) && IsPlain(dictionary) && DecodeAll(newStack, dictionary.parts).Some?
    ensures var m := Compound(Object(["$key", "dictionary"]), [Quoted("Object"), dictionary]);
            Fitting(m) && Decode(newStack, m) ==
                          Some(Filled(dictionary.shape.keys, DecodeAll(newStack, dictionary.parts).value))
  {
    var keys, parts := ["$key", "dictionary"], [Quoted("Object"), dictionary];
    assert keys[..1] == ["$key"] && parts[..1] == [Quoted("Object")];
    assert Entry(keys, parts, "$key") == Some(Quoted("Object"));
    assert Entry(keys, parts, "dictionary") == Some(dictionary);
  }

  lemma DecodeArrayMessage(newStack: string, values: Data)
    requires Fitting(values) && values.Compound? && values.shape.Array? && DecodeAll(newStack, values.parts).Some?
    ensures var m := Compound(Object(["$key", "values"]), [Quoted("Array"), values]);
            Fitting(m) && Decode(newStack, m) == Some(Compound(Array, DecodeAll(newStack, values.parts).value))
  {
    var keys, parts := ["$key", "values"], [Quoted("Array"), values];
    assert keys[..1] == ["$key"] && parts[..1] == [Quoted("Array")];
    assert Entry(keys, parts, "$key") == Some(Quoted("Array"));
    assert Entry(keys, parts, "values") == Some(values);
  }

  lemma ErrorEntries(name: string, message: string, stack: Option<string>)
    ensures var m := ErrorMessage(name, message, stack);
            && Entry(m.shape.keys, m.parts, "$key") == Some(Quoted("Error"))
            && Entry(m.shape.keys, m.parts, "type") == Some(Quoted(name))
            && Entry(m.shape.keys, m.parts, "message") == Some(Quoted(message))
            && Entry(m.shape.keys, m.parts, "stack") == Some(m.parts[3])
  {
    var m := ErrorMessage(name, message, stack);
    var keys, parts := m.shape.keys, m.parts;
    var keys3, parts3 := ["$key", "type", "message"], [Quoted("Error"), Quoted(name), Quoted(message)];
    var keys2, parts2 := ["$key", "type"], [Quoted("Error"), Quoted(name)];
    assert keys[..3] == keys3 && parts[..3] == parts3 && keys3[..2] == keys2 && parts3[..2] == parts2;
    assert keys2[..1] == ["$key"] && parts2[..1] == [Quoted("Error")];
    assert Entry(keys2, parts2, "$key") == Some(Quoted("Error"));
    assert Entry(keys3, parts3, "$key") == Some(Quoted("Error"));
    assert Entry(keys3, parts3, "type") == Some(Quoted(name));
  }

  lemma DecodeErrorMessage(newStack: string, name: string, message: string, stack: Option<string>)
    ensures Fitting(ErrorMessage(name, message, stack))
    ensures Decode(newStack, ErrorMessage(name, message, stack)) ==
            Some(Received(newStack, Compound(Error(name, message, stack), [])))
  {
    ErrorEntries(name, message, stack);
  }

  lemma DecodeDateMessage(newStack: string, time: real)
    ensures var d := Compound(Date(time), []);
            Fitting(Encode(d)) && Decode(newStack, Encode(d)) == Some(d)
  {
    var keys, parts := ["$key", "data"], [Quoted("Date"), Leaf(Number(time))];
    assert keys[..1] == ["$key"] && parts[..1] == [Quoted("Date")];
    assert Entry(keys, parts, "$key") == Some(Quoted("Date"));
    assert Entry(keys, parts, "data") == Some(Leaf(Number(time)));
  }

  /** Sending a tree yields exactly `Received`, for every tree: in particular an object's own `$key`
      field is never mistaken for the tag of a message. */
  lemma {:induction false} DecodeEncode(newStack: string, d: Data)
    requires Fitting(d)
    ensures Fitting(Encode(d)) && Decode(newStack, Encode(d)) == Some(Received(newStack, d))
    decreases d
  {
    EncodeFits(d);
    match d
    case Leaf(_) =>
    case Compound(Array, parts) =>
      DecodeEncodeAll(newStack, parts);
      DecodeArrayMessage(newStack, Compound(Array, EncodeAll(parts)));
    case Compound(Object(keys), parts) =>
      DecodeEncodeAll(newStack, parts);
      DecodeFilled(newStack, keys, EncodeAll(parts));
      DecodeObjectMessage(newStack, Filled(keys, EncodeAll(parts)));
    case Compound(Error(name, message, stack), _) => DecodeErrorMessage(newStack, name, message, stack);
    case Compound(Date(time), _) => DecodeDateMessage(newStack, time);
  }

  lemma {:induction false} DecodeEncodeAll(newStack: string, ds: seq<Data>)
    requires AllFitting(ds)
    ensures AllFitting(EncodeAll(ds)) && DecodeAll(newStack, EncodeAll(ds)) == Some(ReceivedAll(newStack, ds))
    decreases ds
  {
    EncodeAllFits(ds);
    if ds != [] {
      DecodeEncodeAll(newStack, ds[..|ds| - 1]);
      DecodeEncode(newStack, ds[|ds| - 1]);
      assert EncodeAll(ds)[..|ds| - 1] == EncodeAll(ds[..|ds| - 1]);
    }
  }

  // ---- What is lost ----

  /** The message, the stack or a new one, and the class if it is one of the seven standard ones, or else
      that of a plain error. */
  ghost predicate ErrorWith(d: Data, newStack: string, name: string, message: string, stack: Option<string>) {
    && d.Compound? && d.shape.Error? && d.parts == [] && d.shape.message == message
    && (stack.Some? ==> d.shape.stack == stack) && (stack.None? ==> d.shape.stack == Some(newStack))
    && (d.shape.name == name <==>
        name in {"Error", "EvalError", "RangeError", "ReferenceError", "SyntaxError", "TypeError", "URIError"})
    && (d.shape.name != name ==> d.shape.name == "Error")
  }

  lemma ErrorReceived(newStack: string, name: string, message: string, stack: Option<string>)
    ensures ErrorWith(Received(newStack, Compound(Error(name, message, stack), [])), newStack, name, message, stack)
  {
  }

  /** An error comes back with its message, with its stack or a new one, and with its class if that is
      one of the seven standard ones, and else as a plain error. */
  lemma ErrorArrives(newStack: string, name: string, message: string, stack: Option<string>)
    ensures Fitting(ErrorMessage(name, message, stack))
    ensures Decode(newStack, ErrorMessage(name, message, stack)).Some?
    ensures ErrorWith(Decode(newStack, ErrorMessage(name, message, stack)).value, newStack, name, message, stack)
  {
    DecodeErrorMessage(newStack, name, message, stack);
    ErrorReceived(newStack, name, message, stack);
  }

  lemma EntrySnoc(keys: seq<string>, values: seq<Data>, last: string, value: Data, key: string)
    requires |keys| == |values|
    ensures Entry(keys + [last], values + [value], key) == if last == key then Some(value) else Entry(keys, values, key)
  {
    assert (keys + [last])[..|keys|] == keys && (values + [value])[..|keys|] == values;
  }

  lemma SubsequenceSkip(a: seq<string>, b: seq<string>, last: string)
    requires IsSubsequence(a, b)
    ensures IsSubsequence(a, b + [last]) && IsSubsequence(a + [last], b + [last])
  {
    SubsequenceAppend(a, b, [last]);
    assert (b + [last])[..|b + [last]| - 1] == b;
  }

  lemma {:induction false} FilledSubsequence(keys: seq<string>, values: seq<Data>)
    requires |keys| == |values|
    ensures IsSubsequence(Filled(keys, values).shape.keys, keys)
  {
    if keys != [] {
      var n := |keys| - 1;
      FilledSubsequence(keys[..n], values[..n]);
      assert keys == keys[..n] + [keys[n]];
      SubsequenceSkip(Filled(keys[..n], values[..n]).shape.keys, keys[..n], keys[n]);
    }
  }

  lemma {:induction false} FilledOccurrences(keys: seq<string>, values: seq<Data>, key: string)
    requires |keys| == |values|
    ensures Occurrences(Filled(keys, values).shape.keys, key) == if key == PROTO then 0 else Occurrences(keys, key)
  {
    if keys != [] {
      var n := |keys| - 1;
      FilledOccurrences(keys[..n], values[..n], key);
      OccurrencesSnoc(Filled(keys[..n], values[..n]).shape.keys, keys[n], key);
    }
  }

  lemma {:induction false} FilledEntry(keys: seq<string>, values: seq<Data>, key: string)
    requires |keys| == |values|
    ensures var f := Filled(keys, values);
            Entry(f.shape.keys, f.parts, key) == if key == PROTO then None else Entry(keys, values, key)
  {
    if keys != [] {
      var n := |keys| - 1;
      var f := Filled(keys[..n], values[..n]);
      FilledEntry(keys[..n], values[..n], key);
      EntrySnoc(f.shape.keys, f.parts, keys[n], values[n], key);
    }
  }

  /** An object that is filled key by key has its keys in order, but for `__proto__`, and under each of
      them the last value that was assigned. */
  lemma FilledExact(keys: seq<string>, values: seq<Data>, key: string)
    requires |keys| == |values|
    ensures var f := Filled(keys, values);
            && IsSubsequence(f.shape.keys, keys)
            && Occurrences(f.shape.keys, key) == (if key == PROTO then 0 else Occurrences(keys, key))
            && Entry(f.shape.keys, f.parts, key) == (if key == PROTO then None else Entry(keys, values, key))
  {
    FilledSubsequence(keys, values);
    FilledOccurrences(keys, values, key);
    FilledEntry(keys, values, key);
  }

  lemma {:induction false} EntryFinds(keys: seq<string>, values: seq<Data>, key: string)
    requires |keys| == |values|
    ensures Entry(keys, values, key).Some? <==> key in keys
    ensures forall i :: 0 <= i < |keys| && keys[i] == key && key !in keys[i + 1..] ==>
              Entry(keys, values, key) == Some(values[i])
  {
    if keys != [] {
      var n := |keys| - 1;
      EntryFinds(keys[..n], values[..n], key);
      assert keys == keys[..n] + [keys[n]];
      forall i | 0 <= i < n && keys[i] == key && key !in keys[i + 1..]
        ensures Entry(keys, values, key) == Some(values[i])
      {
        assert keys[i + 1..][n - i - 1] == keys[n];
        assert keys[i + 1..] == keys[..n][i + 1..] + [keys[n]];
      }
    }
  }

  /** The message is a plain object with these fields. */
  ghost predicate HasFields(message: Data, fields: map<string, Data>) {
    && IsPlain(message)
    && (forall key :: key in message.shape.keys <==> key in fields)
    && (forall key :: key in fields ==> Entry(message.shape.keys, message.parts, key) == Some(fields[key]))
  }

  lemma TwoFields(a: string, b: string, x: Data, y: Data)
    requires a != b
    ensures HasFields(Compound(Object([a, b]), [x, y]), map[a := x, b := y])
  {
    var keys, values := [a, b], [x, y];
    assert keys[..1] == [a] && values[..1] == [x];
    assert Entry([a], [x], a) == Some(x);
  }

  lemma ErrorFields(name: string, message: string, stack: Option<string>)
    ensures HasFields(ErrorMessage(name, message, stack),
                      map["$key" := Quoted("Error"), "type" := Quoted(name), "message" := Quoted(message),
                          "stack" := if stack.Some? then Quoted(stack.value) else Leaf(Undefined)])
  {
    ErrorEntries(name, message, stack);
  }

  /** The messages of arrays, plain objects, errors and dates, field by field. */
  lemma MessageFields(shape: Shape, parts: seq<Data>)
    requires Fitting(Compound(shape, parts))
    ensures HasFields(Encode(Compound(shape, parts)),
                      match shape
                      case Array => map["$key" := Quoted("Array"), "values" := Compound(Array, EncodeAll(parts))]
                      case Object(keys) => map["$key" := Quoted("Object"), "dictionary" := Filled(keys, EncodeAll(parts))]
                      case Error(name, message, stack) =>
                        map["$key" := Quoted("Error"), "type" := Quoted(name), "message" := Quoted(message),
                            "stack" := if stack.Some? then Quoted(stack.value) else Leaf(Undefined)]
                      case Date(time) => map["$key" := Quoted("Date"), "data" := Leaf(Number(time))])
  {
    match shape
    case Array => TwoFields("$key", "values", Quoted("Array"), Compound(Array, EncodeAll(parts)));
    case Object(keys) => TwoFields("$key", "dictionary", Quoted("Object"), Filled(keys, EncodeAll(parts)));
    case Error(name, message, stack) => ErrorFields(name, message, stack);
    case Date(time) => TwoFields("$key", "data", Quoted("Date"), Leaf(Number(time)));
  }

  const TAGS := {"Object", "Array", "Error", "Date", "Function", "Buffer"}

  /** What is not a message is returned as it is: everything that is not a plain object, and a plain
      object whose `$key`, if it has one, is not one of the six tags. */
  lemma UntaggedPasses(newStack: string, d: Data)
    requires Fitting(d)
    requires d.Compound? && d.shape.Object? ==>
               forall tag :: tag in TAGS ==> Entry(d.shape.keys, d.parts, "$key") != Some(Quoted(tag))
    ensures Decode(newStack, d) == Some(d)
  {
    assert "Object" in TAGS && "Array" in TAGS && "Error" in TAGS && "Date" in TAGS;
    assert "Function" in TAGS && "Buffer" in TAGS;
  }

  // ---- When nothing is lost ----

  lemma {:induction false} FilledKeepsIff(keys: seq<string>, values: seq<Data>)
    requires |keys| == |values|
    ensures |Filled(keys, values).parts| <= |keys|
    ensures PROTO in keys ==> |Filled(keys, values).parts| < |keys|
    ensures PROTO !in keys ==> Filled(keys, values) == Compound(Object(keys), values)
  {
    if keys != [] {
      var n := |keys| - 1;
      FilledKeepsIff(keys[..n], values[..n]);
      assert keys == keys[..n] + [keys[n]] && values == values[..n] + [values[n]];
    }
  }

  lemma {:induction false} ReceivedSameIff(newStack: string, d: Data)
    requires Fitting(d)
    ensures Received(newStack, d) == d <==> Faithful(d)
    decreases d
  {
    match d
    case Leaf(_) =>
    case Compound(Array, parts) => ReceivedAllSameIff(newStack, parts);
    case Compound(Object(keys), parts) =>
      ReceivedAllSameIff(newStack, parts);
      FilledKeepsIff(keys, ReceivedAll(newStack, parts));
    case Compound(_, _) =>
  }

  lemma {:induction false} ReceivedAllSameIff(newStack: string, ds: seq<Data>)
    requires AllFitting(ds)
    ensures ReceivedAll(newStack, ds) == ds <==> forall i :: 0 <= i < |ds| ==> Faithful(ds[i])
    decreases ds
  {
    if ds != [] {
      var n := |ds| - 1;
      ReceivedAllSameIff(newStack, ds[..n]);
      ReceivedSameIff(newStack, ds[n]);
      assert ds == ds[..n] + [ds[n]];
    }
  }

  /** The round trip: a tree arrives unchanged exactly when it has no own `__proto__` key and its
      errors are standard errors with a stack. */
  lemma RoundTripIff(newStack: string, d: Data)
    requires Fitting(d)
    ensures Fitting(Encode(d))
    ensures Decode(newStack, Encode(d)) == Some(d) <==> Faithful(d)
  {
    DecodeEncode(newStack, d);
    ReceivedSameIff(newStack, d);
  }

  // ---- Serializing a graph and receiving it ----

  /** `d` is what the value `v` looks like when every reference is followed. */
  ghost predicate Unfolds(heap: Heap, v: Value, d: Data)
    decreases d
  {
    match d
    case Leaf(scalar) => v == Plain(scalar)
    case Compound(shape, parts) =>
      v.Ref? && v.address in heap && heap[v.address].shape == shape && UnfoldAll(heap, heap[v.address].parts, parts)
  }

  ghost predicate UnfoldAll(heap: Heap, vs: seq<Value>, ds: seq<Data>)
    decreases ds
  {
    && |vs| == |ds|
    && (ds != [] ==>
      && UnfoldAll(heap, vs[..|ds| - 1], ds[..|ds| - 1])
      && Unfolds(heap, vs[|ds| - 1], ds[|ds| - 1]))
  }

  ghost predicate AllCopied(visits: seq<Visit>) {
    forall i :: 0 <= i < |visits| ==> visits[i].copied
  }

  /** No object is met twice: the graph is a tree. */
  ghost predicate MetOnce(visits: seq<Visit>) {
    forall i, j :: 0 <= i < j < |visits| ==> visits[i].address != visits[j].address
  }

  lemma MetOnceIff(visits: seq<Visit>)
    requires CopiedOnFirstVisit({}, visits)
    ensures MetOnce(visits) <==> AllCopied(visits)
  {
  }

  lemma {:induction false} CopyFits(heap: Heap, v: Value, t: Trace)
    requires Valid(heap) && Follows(heap, v, t)
    ensures Fitting(Copy(t))
    decreases t
  {
    match t
    case Kept(_) =>
    case Again(_) =>
    case Copied(a, shape, parts) => CopyAllFits(heap, heap[a].parts, parts);
  }

  lemma {:induction false} CopyAllFits(heap: Heap, vs: seq<Value>, ts: seq<Trace>)
    requires Valid(heap) && FollowAll(heap, vs, ts)
    ensures AllFitting(CopyAll(ts))
    decreases ts
  {
    if ts != [] {
      CopyAllFits(heap, vs[..|ts| - 1], ts[..|ts| - 1]);
      CopyFits(heap, vs[|ts| - 1], ts[|ts| - 1]);
    }
  }

  lemma AllCopiedConcat(a: seq<Visit>, b: seq<Visit>)
    ensures AllCopied(a + b) <==> AllCopied(a) && AllCopied(b)
  {
    forall i | 0 <= i < |b| ensures (a + b)[|a| + i] == b[i] {
    }
    forall i | 0 <= i < |a| ensures (a + b)[i] == a[i] {
    }
  }

  lemma {:induction false} CopyUnfoldsIff(heap: Heap, v: Value, t: Trace)
    requires Follows(heap, v, t)
    ensures Unfolds(heap, v, Copy(t)) <==> AllCopied(Visits(t))
    decreases t
  {
    match t
    case Kept(_) =>
    case Again(_) => assert !Visits(t)[0].copied;
    case Copied(a, _, parts) =>
      CopyAllUnfoldIff(heap, heap[a].parts, parts);
      AllCopiedConcat([Visit(a, true)], VisitsAll(parts));
  }

  lemma {:induction false} CopyAllUnfoldIff(heap: Heap, vs: seq<Value>, ts: seq<Trace>)
    requires FollowAll(heap, vs, ts)
    ensures UnfoldAll(heap, vs, CopyAll(ts)) <==> AllCopied(VisitsAll(ts))
    decreases ts
  {
    if ts != [] {
      var n := |ts| - 1;
      CopyAllUnfoldIff(heap, vs[..n], ts[..n]);
      CopyUnfoldsIff(heap, vs[n], ts[n]);
      AllCopiedConcat(VisitsAll(ts[..n]), Visits(ts[n]));
      assert CopyAll(ts)[..n] == CopyAll(ts[..n]);
    }
  }

  lemma {:induction false} UnfoldsUnique(heap: Heap, v: Value, d: Data, e: Data)
    requires Unfolds(heap, v, d) && Unfolds(heap, v, e)
    ensures d == e
    decreases d
  {
    if d.Compound? {
      UnfoldAllUnique(heap, heap[v.address].parts, d.parts, e.parts);
    }
  }

  lemma {:induction false} UnfoldAllUnique(heap: Heap, vs: seq<Value>, ds: seq<Data>, es: seq<Data>)
    requires UnfoldAll(heap, vs, ds) && UnfoldAll(heap, vs, es)
    ensures ds == es
    decreases ds
  {
    if ds != [] {
      var n := |ds| - 1;
      UnfoldAllUnique(heap, vs[..n], ds[..n], es[..n]);
      UnfoldsUnique(heap, vs[n], ds[n], es[n]);
      assert ds == ds[..n] + [ds[n]] && es == es[..n] + [es[n]];
    }
  }

  /** Nothing that is lost on the way can make up for a mark. */
  lemma {:induction false} ReceivedUnfolds(newStack: string, heap: Heap, v: Value, t: Trace)
    requires Follows(heap, v, t) && Fitting(Copy(t)) && Unfolds(heap, v, Received(newStack, Copy(t)))
    ensures AllCopied(Visits(t))
    decreases t
  {
    match t
    case Kept(_) =>
    case Again(_) =>
    case Copied(a, shape, parts) =>
      match shape {
        case Array => ReceivedAllUnfold(newStack, heap, heap[a].parts, parts);
        case Object(keys) =>
          FilledKeepsIff(keys, ReceivedAll(newStack, CopyAll(parts)));
          ReceivedAllUnfold(newStack, heap, heap[a].parts, parts);
        case Error(_, _, _) =>
        case Date(_) =>
      }
      AllCopiedConcat([Visit(a, true)], VisitsAll(parts));
  }

  lemma {:induction false} ReceivedAllUnfold(newStack: string, heap: Heap, vs: seq<Value>, ts: seq<Trace>)
    requires FollowAll(heap, vs, ts) && AllFitting(CopyAll(ts))
    requires UnfoldAll(heap, vs, ReceivedAll(newStack, CopyAll(ts)))
    ensures AllCopied(VisitsAll(ts))
    decreases ts
  {
    if ts != [] {
      var n := |ts| - 1;
      assert CopyAll(ts)[..n] == CopyAll(ts[..n]);
      var received := ReceivedAll(newStack, CopyAll(ts));
      assert received[..n] == ReceivedAll(newStack, CopyAll(ts[..n]));
      ReceivedAllUnfold(newStack, heap, vs[..n], ts[..n]);
      ReceivedUnfolds(newStack, heap, vs[n], ts[n]);
      AllCopiedConcat(VisitsAll(ts[..n]), Visits(ts[n]));
    }
  }

  /** The message for `v` when the objects in `visited` have been met before. */
  function MessageOf(heap: Heap, v: Value, visited: set<Address>): (message: Data)
    requires Valid(heap) && Allocated(heap, v)
    ensures Fitting(message)
  {
    var t := Walk(heap, v, visited).0;
    WalkFollows(heap, v, visited);
    CopyFits(heap, v, t);
    EncodeFits(Copy(t));
    Encode(Copy(t))
  }

  function MessagesOf(heap: Heap, vs: seq<Value>, visited: set<Address>): (messages: seq<Data>)
    requires Valid(heap) && AllAllocated(heap, vs)
    ensures |messages| == |vs| && AllFitting(messages)
  {
    var ts := WalkAll(heap, vs, visited).0;
    WalkAllFollow(heap, vs, visited);
    CopyAllFits(heap, vs, ts);
    EncodeAllFits(CopyAll(ts));
    EncodeAll(CopyAll(ts))
  }

  /** `serialize`: the message for the value `v`. */
  function Serialize(heap: Heap, v: Value): (message: Data)
    requires Valid(heap) && Allocated(heap, v)
    ensures Fitting(message)
  {
    MessageOf(heap, v, {})
  }

  /** Any graph of values, cyclic or not, can be sent. What arrives is a full copy of it exactly when the
      walk meets no object twice and nothing it copies is changed on the way. */
  lemma FullCopyIff(newStack: string, heap: Heap, v: Value)
    requires Valid(heap) && Allocated(heap, v)
    ensures Decode(newStack, Serialize(heap, v)).Some?
    ensures Unfolds(heap, v, Decode(newStack, Serialize(heap, v)).value)
            <==> MetOnce(Visits(Walk(heap, v, {}).0)) && Faithful(Copy(Walk(heap, v, {}).0))
  {
    var t := Walk(heap, v, {}).0;
    WalkVisits(heap, v, {});
    WalkFollows(heap, v, {});
    CopyFits(heap, v, t);
    DecodeEncode(newStack, Copy(t));
    MetOnceIff(Visits(t));
    CopyUnfoldsIff(heap, v, t);
    ReceivedSameIff(newStack, Copy(t));
    if Unfolds(heap, v, Received(newStack, Copy(t))) {
      ReceivedUnfolds(newStack, heap, v, t);
      UnfoldsUnique(heap, v, Copy(t), Received(newStack, Copy(t)));
    }
  }

  // ---- The encoder and the decoder ----

  lemma MessagesSnoc(heap: Heap, vs: seq<Value>, i: nat, visited: set<Address>)
    requires Valid(heap) && AllAllocated(heap, vs) && i < |vs|
    ensures AllAllocated(heap, vs[..i]) && AllAllocated(heap, vs[..i + 1])
    ensures var seen := WalkAll(heap, vs[..i], visited).1;
            WalkAll(heap, vs[..i + 1], visited).1 == Walk(heap, vs[i], seen).1
            && MessagesOf(heap, vs[..i + 1], visited) ==
               MessagesOf(heap, vs[..i], visited) + [MessageOf(heap, vs[i], seen)]
  {
    assert vs[..i + 1][..i] == vs[..i];
    var done := WalkAll(heap, vs[..i + 1], visited).0;
    assert done[..i] == WalkAll(heap, vs[..i], visited).0;
    assert CopyAll(done)[..i] == CopyAll(done[..i]);
  }

  class Serializer {
    const heap: Heap
    var processedStructs: set<Address>

    constructor (heap: Heap)
      ensures this.heap == heap && processedStructs == {}
    {
      this.heap := heap;
      processedStructs := {};
    }

    method InnerSerialize(struct: Value) returns (message: Data)
      requires Valid(heap) && Allocated(heap, struct)
      modifies this
      ensures processedStructs == Walk(heap, struct, old(processedStructs)).1
      ensures message == MessageOf(heap, struct, old(processedStructs))
      decreases heap.Keys - processedStructs, 0
    {
      if struct.Plain? {
        return Leaf(struct.scalar);
      }
      var address := struct.address;
      if address in processedStructs {
        return Quoted(CIRCULAR);
      }
      ghost var before := processedStructs;
      processedStructs := processedStructs + {address};
      assert address in heap.Keys - before && address !in heap.Keys - processedStructs;
      var node := heap[address];
      match node.shape {
        case Error(name, text, stack) => message := ErrorMessage(name, text, stack);
        case Date(time) => message := Compound(Object(["$key", "data"]), [Quoted("Date"), Leaf(Number(time))]);
        case Array =>
          var values := SerializeArray(node.parts);
          message := Compound(Object(["$key", "values"]), [Quoted("Array"), Compound(Array, values)]);
        case Object(keys) =>
          var dictionary := SerializeObject(keys, node.parts);
          message := Compound(Object(["$key", "dictionary"]), [Quoted("Object"), dictionary]);
      }
    }

    method SerializeArray(items: seq<Value>) returns (values: seq<Data>)
      requires Valid(heap) && AllAllocated(heap, items)
      modifies this
      ensures processedStructs == WalkAll(heap, items, old(processedStructs)).1
      ensures values == MessagesOf(heap, items, old(processedStructs))
      decreases heap.Keys - processedStructs, 1
    {
      values := [];
      for i := 0 to |items|
        invariant AllAllocated(heap, items[..i])
        invariant processedStructs == WalkAll(heap, items[..i], old(processedStructs)).1
        invariant values == MessagesOf(heap, items[..i], old(processedStructs))
      {
        MessagesSnoc(heap, items, i, old(processedStructs));
        var value := InnerSerialize(items[i]);
        values := values + [value];
      }
      assert items[..|items|] == items;
    }

    method SerializeObject(keys: seq<string>, values: seq<Value>) returns (dictionary: Data)
      requires Valid(heap) && AllAllocated(heap, values) && |keys| == |values|
      modifies this
      ensures processedStructs == WalkAll(heap, values, old(processedStructs)).1
      ensures dictionary == Filled(keys, MessagesOf(heap, values, old(processedStructs)))
      decreases heap.Keys - processedStructs, 1
    {
      dictionary := Compound(Object([]), []);
      for i := 0 to |keys|
        invariant AllAllocated(heap, values[..i])
        invariant processedStructs == WalkAll(heap, values[..i], old(processedStructs)).1
        invariant dictionary == Filled(keys[..i], MessagesOf(heap, values[..i], old(processedStructs)))
      {
        MessagesSnoc(heap, values, i, old(processedStructs));
        var value := InnerSerialize(values[i]);
        FilledSnoc(keys, i, MessagesOf(heap, values[..i], old(processedStructs)), value);
        dictionary := WithKey(dictionary, keys[i], value);
      }
      assert keys[..|keys|] == keys && values[..|keys|] == values;
    }
  }

  lemma FilledSnoc(keys: seq<string>, i: nat, values: seq<Data>, value: Data)
    requires i < |keys| && |values| == i
    ensures Filled(keys[..i + 1], values + [value]) == WithKey(Filled(keys[..i], values), keys[i], value)
  {
    var more := keys[..i + 1];
    assert more != [] && |more| - 1 == i && more[i] == keys[i];
    assert more[..i] == keys[..i] && (values + [value])[..i] == values && (values + [value])[i] == value;
  }

  /** One undecodable element makes the whole list undecodable. */
  lemma {:induction false} DecodeAllFails(newStack: string, ds: seq<Data>, i: nat)
    requires AllFitting(ds) && i < |ds| && Decode(newStack, ds[i]).None?
    ensures DecodeAll(newStack, ds).None?
  {
    if i < |ds| - 1 {
      DecodeAllFails(newStack, ds[..|ds| - 1], i);
    }
  }

  method Deserialize(newStack: string, struct: Data) returns (r: Option<Data>)
    requires Fitting(struct)
    ensures r == Decode(newStack, struct)
    decreases struct, 1
  {
    if struct.Leaf? || !struct.shape.Object? {
      return Some(struct);
    }
    var keys, parts := struct.shape.keys, struct.parts;
    assert AllFitting(parts);
    match Entry(keys, parts, "$key") {
      case Some(Leaf(Text(kind))) =>
        if kind == "Object" {
          var dictionary := Entry(keys, parts, "dictionary");
          if dictionary.None? || !IsPlain(dictionary.value) {
            return None;
          }
          r := DeserializeObject(newStack, dictionary.value);
        } else if kind == "Array" {
          var values := Entry(keys, parts, "values");
          if values.None? || !values.value.Compound? || !values.value.shape.Array? {
            return None;
          }
          r := DeserializeArray(newStack, values.value.parts);
        } else if kind == "Error" {
          r := DecodeError(newStack, Entry(keys, parts, "type"), Entry(keys, parts, "message"), Entry(keys, parts, "stack"));
        } else if kind == "Date" {
          r := DecodeDate(Entry(keys, parts, "data"));
        } else if kind == "Function" || kind == "Buffer" {
          r := None;
        } else {
          r := Some(struct);
        }
      case _ => r := Some(struct);
    }
  }

  method DeserializeObject(newStack: string, dictionary: Data) returns (r: Option<Data>)
    requires Fitting(dictionary) && IsPlain(dictionary)
    ensures AllFitting(dictionary.parts)
    ensures r.Some? <==> DecodeAll(newStack, dictionary.parts).Some?
    ensures r.Some? ==> r.value == Filled(dictionary.shape.keys, DecodeAll(newStack, dictionary.parts).value)
    decreases dictionary, 0
  {
    var keys, values := dictionary.shape.keys, dictionary.parts;
    var decoded := Compound(Object([]), []);
    for i := 0 to |keys|
      invariant IsPlain(decoded) && DecodeAll(newStack, values[..i]).Some?
      invariant decoded == Filled(keys[..i], DecodeAll(newStack, values[..i]).value)
    {
      assert values[..i + 1][..i] == values[..i];
      var value := Deserialize(newStack, values[i]);
      if value.None? {
        DecodeAllFails(newStack, values, i);
        return None;
      }
      FilledSnoc(keys, i, DecodeAll(newStack, values[..i]).value, value.value);
      decoded := WithKey(decoded, keys[i], value.value);
    }
    assert keys[..|keys|] == keys && values[..|keys|] == values;
    r := Some(decoded);
  }

  method DeserializeArray(newStack: string, values: seq<Data>) returns (r: Option<Data>)
    requires AllFitting(values)
    ensures r.Some? <==> DecodeAll(newStack, values).Some?
    ensures r.Some? ==> r.value == Compound(Array, DecodeAll(newStack, values).value)
    decreases values, 0
  {
    var decoded := [];
    for i := 0 to |values|
      invariant DecodeAll(newStack, values[..i]) == Some(decoded)
    {
      assert values[..i + 1][..i] == values[..i];
      var value := Deserialize(newStack, values[i]);
      if value.None? {
        DecodeAllFails(newStack, values, i);
        return None;
      }
      decoded := decoded + [value.value];
    }
    assert values[..|values|] == values;
    r := Some(Compound(Array, decoded));
  }
}
