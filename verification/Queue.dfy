/** core/utils/src/queue.ts: the first-in first-out queue behind every other component. */
module Queues {
  import opened Common

  class Queue<T> {
    var items: seq<T>

    constructor (initial: seq<T>)
      ensures items == initial
    {
      items := initial;
    }

    method Push(element: T)
      modifies this
      ensures items == old(items) + [element]
    {
      items := items + [element];
    }

    method Shift() returns (first: Option<T>)
      modifies this
      ensures old(items) == [] ==> first == None && items == []
      ensures old(items) != [] ==> first == Some(old(items)[0]) && items == old(items)[1..]
    {
      if items == [] {
        return None;
      }
      first := Some(items[0]);
      items := items[1..];
    }

    method Clean()
      modifies this
      ensures items == []
    {
      items := [];
    }

    /** Drops the elements that satisfy p and returns how many were dropped. */
    method Remove(p: (T, nat) -> bool) returns (removed: nat)
      modifies this
      ensures items == Keep(old(items), Not(p))
      ensures removed == |Keep(old(items), p)|
    {
      var kept := [];
      for i := 0 to |items|
        invariant items == old(items)
        invariant kept == Keep(items[..i], Not(p))
        invariant |kept| + |Keep(items[..i], p)| == i
      {
        assert items[..i + 1][..i] == items[..i];
        if !p(items[i], i) {
          kept := kept + [items[i]];
        }
      }
      assert items[..|items|] == items;
      removed := |items| - |kept|;
      items := kept;
    }

    /** Takes out the elements that satisfy p and leaves the rest, both in their order. */
    method Extract(p: (T, nat) -> bool) returns (taken: seq<T>)
      modifies this
      ensures taken == Keep(old(items), p)
      ensures items == Keep(old(items), Not(p))
    {
      taken := [];
      var rest := [];
      for i := 0 to |items|
        invariant items == old(items)
        invariant taken == Keep(items[..i], p)
        invariant rest == Keep(items[..i], Not(p))
      {
        assert items[..i + 1][..i] == items[..i];
        if p(items[i], i) {
          taken := taken + [items[i]];
        } else {
          rest := rest + [items[i]];
        }
      }
      assert items[..|items|] == items;
      items := rest;
    }
  }
}
