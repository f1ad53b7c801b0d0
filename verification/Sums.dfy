/** Weighted sums over sequences: the arithmetic behind every conservation law. */
module Sums {

  function Sum<T>(s: seq<T>, w: T -> int): int
  {
    if s == [] then 0 else Sum(s[..|s| - 1], w) + w(s[|s| - 1])
  }

  lemma SumSnoc<T>(s: seq<T>, x: T, w: T -> int)
    ensures Sum(s + [x], w) == Sum(s, w) + w(x)
  {
  }

  lemma {:induction false} SumConcat<T>(s: seq<T>, t: seq<T>, w: T -> int)
    ensures Sum(s + t, w) == Sum(s, w) + Sum(t, w)
  {
    if t == [] {
      assert s + t == s;
    } else {
      SumConcat(s, t[..|t| - 1], w);
      assert (s + t)[..|s + t| - 1] == s + t[..|t| - 1];
    }
  }

  lemma {:induction false} SumUpdate<T>(s: seq<T>, i: nat, x: T, w: T -> int)
    requires i < |s|
    ensures Sum(s[i := x], w) == Sum(s, w) - w(s[i]) + w(x)
  {
    var last := |s| - 1;
    if i == last {
      assert s[i := x][..last] == s[..last];
    } else {
      SumUpdate(s[..last], i, x, w);
      assert s[i := x][..last] == s[..last][i := x];
    }
  }

  lemma {:induction false} SumZero<T>(s: seq<T>, w: T -> int)
    requires forall i :: 0 <= i < |s| ==> w(s[i]) == 0
    ensures Sum(s, w) == 0
  {
    if s != [] {
      SumZero(s[..|s| - 1], w);
    }
  }

  lemma {:induction false} SumNonNegative<T>(s: seq<T>, w: T -> int)
    requires forall i :: 0 <= i < |s| ==> 0 <= w(s[i])
    ensures 0 <= Sum(s, w)
  {
    if s != [] {
      SumNonNegative(s[..|s| - 1], w);
    }
  }

  /** One term of a sum of non-negative terms is at most the whole. */
  lemma {:induction false} SumPart<T>(s: seq<T>, i: nat, w: T -> int)
    requires i < |s|
    requires forall j :: 0 <= j < |s| ==> 0 <= w(s[j])
    ensures w(s[i]) <= Sum(s, w)
  {
    var front := s[..|s| - 1];
    if i == |s| - 1 {
      SumNonNegative(front, w);
    } else {
      SumPart(front, i, w);
    }
  }

  /** Two terms of a sum of non-negative terms are together at most the whole. */
  lemma {:induction false} SumTwoParts<T>(s: seq<T>, i: nat, j: nat, w: T -> int)
    requires i < j < |s|
    requires forall k :: 0 <= k < |s| ==> 0 <= w(s[k])
    ensures w(s[i]) + w(s[j]) <= Sum(s, w)
  {
    var front := s[..|s| - 1];
    if j == |s| - 1 {
      SumPart(front, i, w);
    } else {
      SumTwoParts(front, i, j, w);
    }
  }

  /** A weight that is pointwise `u + c * v` sums to `Sum(u) + c * Sum(v)`. */
  lemma {:induction false} SumLinear<T>(s: seq<T>, u: T -> int, c: int, v: T -> int, w: T -> int)
    requires forall i :: 0 <= i < |s| ==> w(s[i]) == u(s[i]) + c * v(s[i])
    ensures Sum(s, w) == Sum(s, u) + c * Sum(s, v)
  {
    if s != [] {
      var front := s[..|s| - 1];
      SumLinear(front, u, c, v, w);
      var x, y := Sum(front, v), v(s[|s| - 1]);
      assert c * (x + y) == c * x + c * y;
    }
  }

  /** Sums agree when the weights agree on the elements. */
  lemma {:induction false} SumSame<T>(s: seq<T>, u: T -> int, w: T -> int)
    requires forall i :: 0 <= i < |s| ==> w(s[i]) == u(s[i])
    ensures Sum(s, w) == Sum(s, u)
  {
    if s != [] {
      SumSame(s[..|s| - 1], u, w);
    }
  }

  /** Weights that are 0 or 1 and never 1 twice sum to at most 1. */
  lemma {:induction false} SumAtMostOne<T>(s: seq<T>, w: T -> int)
    requires forall i :: 0 <= i < |s| ==> 0 <= w(s[i]) <= 1
    requires forall i, j :: 0 <= i < j < |s| ==> w(s[i]) == 0 || w(s[j]) == 0
    ensures Sum(s, w) <= 1
  {
    if s != [] {
      var front := s[..|s| - 1];
      if w(s[|s| - 1]) == 0 {
        SumAtMostOne(front, w);
      } else {
        SumZero(front, w);
      }
    }
  }
}
