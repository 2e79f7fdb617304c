/** Python list operations the lift code relies on: `list.remove` (first
    occurrence, by identity for objects without `__eq__`) and list
    comprehensions that keep the elements satisfying a condition. */
module Lists {

  /** Position of the first occurrence of `x` in `s`. */
  function IndexOf<T(==)>(s: seq<T>, x: T): (i: nat)
    requires x in s
    ensures i < |s| && s[i] == x
    ensures forall j :: 0 <= j < i ==> s[j] != x
  {
    if s[0] == x then 0 else 1 + IndexOf(s[1..], x)
  }

  /** `s.remove(x)` on a list that may or may not hold `x`: the first
      occurrence goes, everything else keeps its order (RemoveFirstAt);
      nothing changes when `x` is absent. */
  function RemoveFirst<T(==)>(s: seq<T>, x: T): (r: seq<T>)
    ensures x !in s ==> r == s
    ensures x in s ==> |r| == |s| - 1
  {
    if s == [] then []
    else if s[0] == x then s[1..]
    else [s[0]] + RemoveFirst(s[1..], x)
  }

  /** `s.remove(x)` takes exactly one `x` out of the multiset of `s` (none
      when there is none). */
  lemma {:induction false} RemoveFirstMultiset<T>(s: seq<T>, x: T)
    ensures multiset(RemoveFirst(s, x)) == multiset(s) - multiset{x}
  {
    if s != [] {
      assert s == [s[0]] + s[1..];
      if s[0] != x {
        RemoveFirstMultiset(s[1..], x);
      }
    }
  }

  /** `s.remove(x)` keeps only elements of `s`. */
  lemma {:induction false} RemoveFirstSubset<T>(s: seq<T>, x: T)
    ensures forall y :: y in RemoveFirst(s, x) ==> y in s
  {
    if s != [] && s[0] != x {
      RemoveFirstSubset(s[1..], x);
    }
  }

  /** `s.remove(x)` cuts out position `i` when that is the first `x`. */
  lemma {:induction false} RemoveFirstCut<T>(s: seq<T>, x: T, i: nat)
    requires i < |s| && s[i] == x && x !in s[..i]
    ensures RemoveFirst(s, x) == s[..i] + s[i + 1..]
  {
    if i > 0 {
      var t := s[1..];
      assert t[i - 1] == x;
      assert t[..i - 1] == s[1..i];
      RemoveFirstCut(t, x, i - 1);
      assert s[..i] == [s[0]] + t[..i - 1];
      assert s[i + 1..] == t[i..];
    }
  }

  /** What `s.remove(x)` leaves when `x` is present: the list with the
      element at the first occurrence cut out. */
  lemma RemoveFirstAt<T>(s: seq<T>, x: T)
    requires x in s
    ensures RemoveFirst(s, x) == s[..IndexOf(s, x)] + s[IndexOf(s, x) + 1..]
  {
    var i := IndexOf(s, x);
    assert x !in s[..i];
    RemoveFirstCut(s, x, i);
  }

  /** No element occurs twice. */
  predicate NoDuplicates<T(==)>(s: seq<T>) {
    forall i, j :: 0 <= i < j < |s| ==> s[i] != s[j]
  }

  /** Cutting a position out of a list without repeats leaves a list
      without repeats. */
  lemma CutNoDuplicates<T>(s: seq<T>, i: nat)
    requires NoDuplicates(s) && i < |s|
    ensures NoDuplicates(s[..i] + s[i + 1..])
  {
    var r := s[..i] + s[i + 1..];
    forall a, b | 0 <= a < b < |r| ensures r[a] != r[b] {
      var a', b' := if a < i then a else a + 1, if b < i then b else b + 1;
      assert r[a] == s[a'] && r[b] == s[b'];
    }
  }

  /** In a list without repeats, removing the element at `i` cuts out
      position `i` and leaves a list without repeats. */
  lemma RemoveFirstDistinct<T>(s: seq<T>, i: nat)
    requires NoDuplicates(s) && i < |s|
    ensures RemoveFirst(s, s[i]) == s[..i] + s[i + 1..]
    ensures NoDuplicates(RemoveFirst(s, s[i]))
  {
    assert s[i] !in s[..i];
    RemoveFirstCut(s, s[i], i);
    CutNoDuplicates(s, i);
  }

  /** The list comprehension `[x for x in s if p(x) == keep]`. */
  function Filter<T>(s: seq<T>, p: T -> bool, keep: bool): (r: seq<T>)
    ensures forall i :: 0 <= i < |r| ==> r[i] in s && p(r[i]) == keep
    ensures forall i :: 0 <= i < |s| && p(s[i]) == keep ==> s[i] in r
    ensures |r| <= |s|
  {
    if s == [] then []
    else
      assert s == [s[0]] + s[1..];
      (if p(s[0]) == keep then [s[0]] else []) + Filter(s[1..], p, keep)
  }

  /** Removing an element that `Filter(_, p, false)` drops does not change
      what that filter keeps. */
  lemma {:induction false} FilterRemoveDropped<T>(s: seq<T>, p: T -> bool, x: T)
    requires p(x)
    ensures Filter(RemoveFirst(s, x), p, false) == Filter(s, p, false)
  {
    if s != [] && s[0] != x {
      FilterRemoveDropped(s[1..], p, x);
      assert RemoveFirst(s, x) == [s[0]] + RemoveFirst(s[1..], x);
      assert RemoveFirst(s, x)[1..] == RemoveFirst(s[1..], x);
    }
  }

  /** Removing an element that `Filter(_, p, true)` keeps removes its first
      occurrence from what the filter keeps. */
  lemma {:induction false} FilterRemoveKept<T>(s: seq<T>, p: T -> bool, x: T)
    requires p(x)
    ensures Filter(RemoveFirst(s, x), p, true) == RemoveFirst(Filter(s, p, true), x)
  {
    if s == [] {
    } else if s[0] == x {
      var f := Filter(s[1..], p, true);
      assert Filter(s, p, true) == [x] + f;
      assert ([x] + f)[1..] == f;
    } else {
      var r := RemoveFirst(s[1..], x);
      var f := Filter(s[1..], p, true);
      FilterRemoveKept(s[1..], p, x);
      assert RemoveFirst(s, x) == [s[0]] + r;
      assert ([s[0]] + r)[1..] == r;
      if p(s[0]) {
        assert Filter(s, p, true) == [s[0]] + f;
        assert ([s[0]] + f)[1..] == f;
      } else {
        assert Filter(s, p, true) == f;
      }
    }
  }

  /** When no element satisfies `p`, the complementary filter keeps all. */
  lemma {:induction false} FilterNoneKept<T>(s: seq<T>, p: T -> bool)
    requires Filter(s, p, true) == []
    ensures Filter(s, p, false) == s
  {
    if s != [] {
      assert s[0] in s;
      FilterNoneKept(s[1..], p);
      assert s == [s[0]] + s[1..];
    }
  }

  /** The two complementary filters split `s`: their multisets add up to
      that of `s`, and so do their lengths. */
  lemma {:induction false} FilterSplit<T>(s: seq<T>, p: T -> bool)
    ensures multiset(Filter(s, p, true)) + multiset(Filter(s, p, false)) == multiset(s)
    ensures |Filter(s, p, true)| + |Filter(s, p, false)| == |s|
  {
    if s != [] {
      var h, t := s[0], s[1..];
      assert s == [h] + t;
      FilterSplit(t, p);
      if p(h) {
        assert Filter(s, p, true) == [h] + Filter(t, p, true);
        assert Filter(s, p, false) == Filter(t, p, false);
      } else {
        assert Filter(s, p, true) == Filter(t, p, true);
        assert Filter(s, p, false) == [h] + Filter(t, p, false);
      }
    }
  }

  /** Cancelling a common part from both sides of a multiset equation. */
  lemma MultisetCancel<T>(a: multiset<T>, b: multiset<T>, c: multiset<T>, d: multiset<T>)
    requires a + (d + b) == c + d
    ensures a + b == c
  {
    forall x ensures (a + b)[x] == c[x] {
      assert (a + (d + b))[x] == (c + d)[x];
    }
  }

  /** The first occurrence of an element of `a` is the same in `a + b`. */
  lemma {:induction false} IndexOfPrefix<T>(a: seq<T>, b: seq<T>, x: T)
    requires x in a
    ensures IndexOf(a + b, x) == IndexOf(a, x)
  {
    if a[0] != x {
      assert (a + b)[1..] == a[1..] + b;
      IndexOfPrefix(a[1..], b, x);
    }
  }
}
