/** Order-preserving selections from a sequence. */
module Subsequences {

  /** a can be had from b by leaving elements out; matched greedily from the end. */
  predicate IsSubsequence<T(==)>(a: seq<T>, b: seq<T>)
  {
    if a == [] then true
    else if b == [] then false
    else if a[|a| - 1] == b[|b| - 1] then IsSubsequence(a[..|a| - 1], b[..|b| - 1])
    else IsSubsequence(a, b[..|b| - 1])
  }

  lemma {:induction false} Weaken<T>(a: seq<T>, b: seq<T>, x: T)
    requires IsSubsequence(a, b)
    ensures IsSubsequence(a, b + [x])
    decreases |b|, 1
  {
    assert (b + [x])[..|b|] == b;
    if a != [] && a[|a| - 1] == x { DropLast(a, b); }
  }

  lemma {:induction false} DropLast<T>(a: seq<T>, b: seq<T>)
    requires a != [] && IsSubsequence(a, b)
    ensures IsSubsequence(a[..|a| - 1], b)
    decreases |b|, 0
  {
    var shorter, last := b[..|b| - 1], b[|b| - 1];
    assert b == shorter + [last];
    if a[|a| - 1] != last { DropLast(a, shorter); }
    Weaken(a[..|a| - 1], shorter, last);
  }

  lemma AppendBoth<T>(a: seq<T>, b: seq<T>, x: T)
    requires IsSubsequence(a, b)
    ensures IsSubsequence(a + [x], b + [x])
  {
    assert (a + [x])[..|a|] == a && (b + [x])[..|b|] == b;
  }

  lemma {:induction false} PrependRight<T>(a: seq<T>, b: seq<T>, x: T)
    requires IsSubsequence(a, b)
    ensures IsSubsequence(a, [x] + b)
  {
    if a != [] {
      assert ([x] + b)[..|b|] == [x] + b[..|b| - 1];
      PrependRight(if a[|a| - 1] == b[|b| - 1] then a[..|a| - 1] else a, b[..|b| - 1], x);
    }
  }

  lemma {:induction false} PrependBoth<T>(a: seq<T>, b: seq<T>, x: T)
    requires IsSubsequence(a, b)
    ensures IsSubsequence([x] + a, [x] + b)
  {
    if b != [] {
      assert ([x] + b)[..|b|] == [x] + b[..|b| - 1];
      if a != [] && a[|a| - 1] == b[|b| - 1] {
        PrependBoth(a[..|a| - 1], b[..|b| - 1], x);
        assert ([x] + a)[..|a|] == [x] + a[..|a| - 1];
      } else if a == [] {
        PrependBoth([], b[..|b| - 1], x);
        assert [x] + a == [x];
        if b[|b| - 1] == x { assert [x][..0] == []; }
      } else {
        PrependBoth(a, b[..|b| - 1], x);
        assert ([x] + a)[|a|] == a[|a| - 1];
      }
    }
  }
}
