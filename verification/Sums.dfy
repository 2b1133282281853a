/** Sums of an integer measure over a sequence, and how they react to the edits the services make. */
module Sums {

  function Max(a: int, b: int): int
  {
    if a >= b then a else b
  }

  ghost function Sum<T>(s: seq<T>, f: T -> int): int
  {
    if s == [] then 0 else Sum(s[..|s| - 1], f) + f(s[|s| - 1])
  }

  lemma SumLast<T>(s: seq<T>, f: T -> int)
    requires s != []
    ensures Sum(s, f) == Sum(s[..|s| - 1], f) + f(s[|s| - 1])
  {
  }

  lemma SumSnoc<T>(s: seq<T>, x: T, f: T -> int)
    ensures Sum(s + [x], f) == Sum(s, f) + f(x)
  {
    assert (s + [x])[..|s|] == s;
  }

  lemma {:induction false} SumAppend<T>(a: seq<T>, b: seq<T>, f: T -> int)
    ensures Sum(a + b, f) == Sum(a, f) + Sum(b, f)
  {
    if b == [] {
      assert a + b == a;
    } else {
      SumAppend(a, b[..|b| - 1], f);
      assert (a + b)[..|a + b| - 1] == a + b[..|b| - 1];
    }
  }

  lemma SumCons<T>(x: T, s: seq<T>, f: T -> int)
    ensures Sum([x] + s, f) == f(x) + Sum(s, f)
  {
    SumAppend([x], s, f);
    SumSnoc([], x, f);
    assert [] + [x] == [x];
  }

  lemma {:induction false} SumUpdate<T>(s: seq<T>, k: nat, x: T, f: T -> int)
    requires k < |s|
    ensures Sum(s[k := x], f) == Sum(s, f) - f(s[k]) + f(x)
  {
    var last := |s| - 1;
    if k == last {
      assert s[k := x][..last] == s[..last];
    } else {
      SumUpdate(s[..last], k, x, f);
      assert s[k := x][..last] == s[..last][k := x];
    }
  }

  /** A measure that is bounded pointwise is bounded in total. */
  lemma {:induction false} SumMono<T, U>(s: seq<T>, f: T -> int, t: seq<U>, g: U -> int)
    requires |s| == |t| && forall k :: 0 <= k < |s| ==> f(s[k]) <= g(t[k])
    ensures Sum(s, f) <= Sum(t, g)
  {
    if s != [] {
      SumMono(s[..|s| - 1], f, t[..|s| - 1], g);
    }
  }

  lemma SumEqual<T, U>(s: seq<T>, f: T -> int, t: seq<U>, g: U -> int)
    requires |s| == |t| && forall k :: 0 <= k < |s| ==> f(s[k]) == g(t[k])
    ensures Sum(s, f) == Sum(t, g)
  {
    SumMono(s, f, t, g);
    SumMono(t, g, s, f);
  }

  lemma {:induction false} SumZero<T>(s: seq<T>, f: T -> int)
    requires forall k :: 0 <= k < |s| ==> f(s[k]) == 0
    ensures Sum(s, f) == 0
  {
    if s != [] {
      SumZero(s[..|s| - 1], f);
    }
  }

  lemma {:induction false} SumNonNegative<T>(s: seq<T>, f: T -> int)
    requires forall k :: 0 <= k < |s| ==> f(s[k]) >= 0
    ensures Sum(s, f) >= 0
  {
    if s != [] {
      SumNonNegative(s[..|s| - 1], f);
    }
  }

  /** No element of a non-negative sum exceeds the total. */
  lemma {:induction false} SumAtLeast<T>(s: seq<T>, k: nat, f: T -> int)
    requires k < |s|
    requires forall j :: 0 <= j < |s| ==> f(s[j]) >= 0
    ensures f(s[k]) <= Sum(s, f)
  {
    if k < |s| - 1 {
      SumAtLeast(s[..|s| - 1], k, f);
    } else {
      SumNonNegative(s[..k], f);
    }
  }

  /** Pointwise split of one measure into two. */
  lemma {:induction false} SumSplit<T, U, V>(s: seq<T>, f: T -> int, t: seq<U>, g: U -> int, u: seq<V>, h: V -> int)
    requires |s| == |t| == |u| && forall k :: 0 <= k < |s| ==> f(s[k]) == g(t[k]) + h(u[k])
    ensures Sum(s, f) == Sum(t, g) + Sum(u, h)
  {
    if s != [] {
      SumSplit(s[..|s| - 1], f, t[..|s| - 1], g, u[..|s| - 1], h);
    }
  }
}
