/** Sequences with some elements left out. */
module Subsequences {
  /** `a` is `b` with some elements left out. */
  ghost predicate Subsequence<T>(a: seq<T>, b: seq<T>) {
    a == [] ||
    (b != [] && (Subsequence(a, b[..|b| - 1]) ||
                 (a[|a| - 1] == b[|b| - 1] && Subsequence(a[..|a| - 1], b[..|b| - 1]))))
  }

  lemma {:induction false} SubsequenceOfLonger<T>(a: seq<T>, b: seq<T>, y: seq<T>)
    requires Subsequence(a, b)
    ensures Subsequence(a, b + y)
  {
    if y == [] {
      assert b + y == b;
    } else {
      SubsequenceOfLonger(a, b, y[..|y| - 1]);
      assert (b + y)[..|b + y| - 1] == b + y[..|y| - 1];
    }
  }

  lemma SubsequenceSnoc<T>(a: seq<T>, b: seq<T>, x: T)
    requires Subsequence(a, b)
    ensures Subsequence(a + [x], b + [x])
  {
    assert (a + [x])[..|a|] == a && (b + [x])[..|b|] == b;
  }

  lemma {:induction false} SubsequenceJoin<T>(a: seq<T>, b: seq<T>, x: seq<T>)
    requires Subsequence(a, b)
    ensures Subsequence(a + x, b + x)
  {
    if x == [] {
      assert a + x == a && b + x == b;
    } else {
      var x' := x[..|x| - 1];
      SubsequenceJoin(a, b, x');
      SubsequenceSnoc(a + x', b + x', x[|x| - 1]);
      assert a + x == a + x' + [x[|x| - 1]] && b + x == b + x' + [x[|x| - 1]];
    }
  }

  lemma {:induction false} SubsequenceOfItself<T>(a: seq<T>)
    ensures Subsequence(a, a)
  {
    if a != [] {
      SubsequenceOfItself(a[..|a| - 1]);
    }
  }

  /** Leaving out the last element as well. */
  lemma {:induction false} SubsequenceDropLast<T>(a: seq<T>, x: T, b: seq<T>)
    requires Subsequence(a + [x], b)
    ensures Subsequence(a, b)
  {
    var n := |b| - 1;
    assert (a + [x])[..|a|] == a;
    if Subsequence(a + [x], b[..n]) {
      SubsequenceDropLast(a, x, b[..n]);
    }
    SubsequenceOfLonger(a, b[..n], [b[n]]);
    assert b[..n] + [b[n]] == b;
  }

  /** Leaving out a whole tail as well. */
  lemma {:induction false} SubsequenceOfPart<T>(a: seq<T>, x: seq<T>, b: seq<T>)
    requires Subsequence(a + x, b)
    ensures Subsequence(a, b)
  {
    if x == [] {
      assert a + x == a;
    } else {
      var x' := x[..|x| - 1];
      assert a + x == a + x' + [x[|x| - 1]];
      SubsequenceDropLast(a + x', x[|x| - 1], b);
      SubsequenceOfPart(a, x', b);
    }
  }

  lemma {:induction false} SubsequenceTransitive<T>(a: seq<T>, b: seq<T>, c: seq<T>)
    requires Subsequence(a, b) && Subsequence(b, c)
    ensures Subsequence(a, c)
    decreases |c|
  {
    if a != [] {
      var n := |c| - 1;
      if Subsequence(b, c[..n]) {
        SubsequenceTransitive(a, b, c[..n]);
      } else if Subsequence(a, b[..|b| - 1]) {
        SubsequenceTransitive(a, b[..|b| - 1], c[..n]);
      } else {
        SubsequenceTransitive(a[..|a| - 1], b[..|b| - 1], c[..n]);
      }
    }
  }

  /** `ix` picks `a` out of `b`: positions in increasing order. */
  ghost predicate Picks<T>(ix: seq<nat>, a: seq<T>, b: seq<T>) {
    && |ix| == |a| && (forall j, k :: 0 <= j < k < |ix| ==> ix[j] < ix[k])
    && forall k :: 0 <= k < |ix| ==> ix[k] < |b| && a[k] == b[ix[k]]
  }

  /** A subsequence lies at increasing positions. */
  lemma {:induction false} SubsequencePositions<T>(a: seq<T>, b: seq<T>) returns (ix: seq<nat>)
    requires Subsequence(a, b)
    ensures Picks(ix, a, b)
  {
    if a == [] {
      ix := [];
    } else if Subsequence(a, b[..|b| - 1]) {
      ix := SubsequencePositions(a, b[..|b| - 1]);
    } else {
      var init := SubsequencePositions(a[..|a| - 1], b[..|b| - 1]);
      ix := init + [|b| - 1];
    }
  }

  /** And whatever lies at increasing positions is a subsequence. */
  lemma {:induction false} PicksSubsequence<T>(ix: seq<nat>, a: seq<T>, b: seq<T>)
    requires Picks(ix, a, b)
    ensures Subsequence(a, b)
    decreases |b|
  {
    if a != [] {
      var n := |b| - 1;
      assert b != [] by { assert ix[0] < |b|; }
      if ix[|ix| - 1] == n {
        PicksSubsequence(ix[..|ix| - 1], a[..|a| - 1], b[..n]);
      } else {
        PicksSubsequence(ix, a, b[..n]);
      }
    }
  }
}
