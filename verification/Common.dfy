/** Failure-free wrappers and the sequence facts that several modules share. */
module Common {

  datatype Option<+T> = None | Some(value: T)

  datatype Result<+T, +E> = Ok(value: T) | Err(error: E)

  /** The elements of s at the positions where p holds, in their order. */
  function Keep<T>(s: seq<T>, p: (T, nat) -> bool): (r: seq<T>)
    ensures |r| <= |s|
  {
    if s == [] then []
    else
      var last := |s| - 1;
      Keep(s[..last], p) + (if p(s[last], last) then [s[last]] else [])
  }

  /** The complement of a selection predicate. */
  function Not<T>(p: (T, nat) -> bool): (T, nat) -> bool {
    (x: T, i: nat) => !p(x, i)
  }

  function Occurrences<T(==)>(s: seq<T>, x: T): nat {
    if s == [] then 0 else Occurrences(s[..|s| - 1], x) + (if s[|s| - 1] == x then 1 else 0)
  }

  lemma {:induction false} OccurrencesCount<T>(s: seq<T>, x: T)
    ensures Occurrences(s, x) == multiset(s)[x]
  {
    if s != [] {
      OccurrencesCount(s[..|s| - 1], x);
      assert s == s[..|s| - 1] + [s[|s| - 1]];
    }
  }

  lemma OccurrencesSnoc<T>(s: seq<T>, last: T, x: T)
    ensures Occurrences(s + [last], x) == Occurrences(s, x) + if last == x then 1 else 0
  {
    assert (s + [last])[..|s|] == s;
  }

  lemma KeepSnoc<T>(s: seq<T>, p: (T, nat) -> bool)
    requires s != []
    ensures var init, last := s[..|s| - 1], s[|s| - 1];
            Keep(s, p) == if p(last, |s| - 1) then Keep(init, p) + [last] else Keep(init, p)
  {
  }

  /** A selection and its complement share out the occurrences of every element of s. */
  lemma {:induction false} KeepPartitions<T>(s: seq<T>, p: (T, nat) -> bool, x: T)
    ensures Occurrences(Keep(s, p), x) + Occurrences(Keep(s, Not(p)), x) == Occurrences(s, x)
  {
    if s != [] {
      var init, last := s[..|s| - 1], s[|s| - 1];
      KeepPartitions(init, p, x);
      KeepSnoc(s, p);
      KeepSnoc(s, Not(p));
      OccurrencesSnoc(Keep(init, p), last, x);
      OccurrencesSnoc(Keep(init, Not(p)), last, x);
    }
  }

  /** What is kept is what stands at a selected position. */
  lemma {:induction false} KeepSelects<T>(s: seq<T>, p: (T, nat) -> bool, x: T)
    ensures x in Keep(s, p) <==> exists i: nat :: i < |s| && s[i] == x && p(x, i)
  {
    if s != [] {
      KeepSelects(s[..|s| - 1], p, x);
      KeepSnoc(s, p);
      assert forall i: nat :: i < |s| - 1 ==> s[..|s| - 1][i] == s[i];
    }
  }

  /** A predicate that does not look at positions keeps all occurrences of an element or none. */
  lemma {:induction false} KeepOccurrences<T>(s: seq<T>, p: (T, nat) -> bool, x: T, kept: bool)
    requires forall i: nat :: p(x, i) == kept
    ensures Occurrences(Keep(s, p), x) == if kept then Occurrences(s, x) else 0
  {
    if s != [] {
      var init, last := s[..|s| - 1], s[|s| - 1];
      KeepOccurrences(init, p, x, kept);
      KeepSnoc(s, p);
      OccurrencesSnoc(Keep(init, p), last, x);
    }
  }

  /** a is obtained from b by leaving elements out. */
  ghost predicate IsSubsequence<T>(a: seq<T>, b: seq<T>) {
    a == [] ||
    (b != [] &&
     ((a[|a| - 1] == b[|b| - 1] && IsSubsequence(a[..|a| - 1], b[..|b| - 1]))
      || IsSubsequence(a, b[..|b| - 1])))
  }

  lemma {:induction false} SubsequenceReflexive<T>(a: seq<T>)
    ensures IsSubsequence(a, a)
  {
    if a != [] {
      SubsequenceReflexive(a[..|a| - 1]);
    }
  }

  lemma {:induction false} SubsequenceAppend<T>(a: seq<T>, b: seq<T>, c: seq<T>)
    requires IsSubsequence(a, b)
    ensures IsSubsequence(a + c, b + c)
  {
    if c == [] {
      assert a + c == a && b + c == b;
    } else {
      SubsequenceAppend(a, b, c[..|c| - 1]);
      assert (a + c)[..|a + c| - 1] == a + c[..|c| - 1];
      assert (b + c)[..|b + c| - 1] == b + c[..|c| - 1];
    }
  }

  lemma {:induction false} SubsequenceInit<T>(a: seq<T>, b: seq<T>)
    requires IsSubsequence(a, b) && a != []
    ensures IsSubsequence(a[..|a| - 1], b)
    decreases |b|
  {
    if a[|a| - 1] == b[|b| - 1] && IsSubsequence(a[..|a| - 1], b[..|b| - 1]) {
    } else {
      SubsequenceInit(a, b[..|b| - 1]);
    }
  }

  lemma {:induction false} SubsequenceTransitive<T>(a: seq<T>, b: seq<T>, c: seq<T>)
    requires IsSubsequence(a, b) && IsSubsequence(b, c)
    ensures IsSubsequence(a, c)
    decreases |b| + |c|
  {
    if a != [] {
      if b[|b| - 1] == c[|c| - 1] && IsSubsequence(b[..|b| - 1], c[..|c| - 1]) {
        if a[|a| - 1] == b[|b| - 1] && IsSubsequence(a[..|a| - 1], b[..|b| - 1]) {
          SubsequenceTransitive(a[..|a| - 1], b[..|b| - 1], c[..|c| - 1]);
        } else {
          SubsequenceTransitive(a, b[..|b| - 1], c[..|c| - 1]);
        }
      } else {
        SubsequenceTransitive(a, b, c[..|c| - 1]);
      }
    }
  }

  /** Leaving elements out of the tail of a sequence only leaves elements out. */
  lemma {:induction false} KeepSubsequence<T>(head: seq<T>, s: seq<T>, p: (T, nat) -> bool)
    ensures IsSubsequence(head + Keep(s, p), head + s)
  {
    if s == [] {
      assert Keep(s, p) == s;
      SubsequenceReflexive(head + s);
    } else {
      var last := |s| - 1;
      KeepSubsequence(head, s[..last], p);
      SubsequenceAppend(head + Keep(s[..last], p), head + s[..last], [s[last]]);
      assert (head + s[..last]) + [s[last]] == head + s;
      if p(s[last], last) {
        assert (head + Keep(s[..last], p)) + [s[last]] == head + Keep(s, p);
      } else {
        assert head + Keep(s, p) == head + Keep(s[..last], p);
        assert (head + s)[..|head + s| - 1] == head + s[..last];
      }
    }
  }

  predicate Distinct<T(==)>(s: seq<T>) {
    forall i, j :: 0 <= i < j < |s| ==> s[i] != s[j]
  }

  /** A selection and its complement split the members of a sequence. */
  lemma {:induction false} KeepMembers<T>(s: seq<T>, p: (T, nat) -> bool, x: T)
    ensures x in s <==> x in Keep(s, p) || x in Keep(s, Not(p))
  {
    if s != [] {
      KeepMembers(s[..|s| - 1], p, x);
    }
  }

  lemma {:induction false} KeepDisjoint<T>(s: seq<T>, p: (T, nat) -> bool, x: T)
    requires Distinct(s)
    ensures !(x in Keep(s, p) && x in Keep(s, Not(p)))
  {
    if s != [] {
      KeepDisjoint(s[..|s| - 1], p, x);
      KeepMembers(s[..|s| - 1], p, x);
    }
  }
}
