/** Adding up a weight over a sequence: counting requests, threads and the work left in them. */
module Sums {
  function One(b: bool): nat {
    if b then 1 else 0
  }

  function Sum<T>(s: seq<T>, weight: T -> nat): nat {
    if s == [] then 0 else weight(s[0]) + Sum(s[1..], weight)
  }

  lemma {:induction false} SumAppend<T>(a: seq<T>, b: seq<T>, weight: T -> nat)
    ensures Sum(a + b, weight) == Sum(a, weight) + Sum(b, weight)
  {
    if a == [] {
      assert a + b == b;
    } else {
      assert (a + b)[0] == a[0] && (a + b)[1..] == a[1..] + b;
      SumAppend(a[1..], b, weight);
    }
  }

  lemma SumOne<T>(x: T, weight: T -> nat)
    ensures Sum([x], weight) == weight(x)
  {
    assert [x][1..] == [];
  }

  lemma SumPush<T>(s: seq<T>, x: T, weight: T -> nat)
    ensures Sum(s + [x], weight) == Sum(s, weight) + weight(x)
  {
    hide Sum;
    SumAppend(s, [x], weight);
    SumOne(x, weight);
  }

  /** Taking one element out takes its weight out. */
  lemma SumCut<T>(s: seq<T>, i: nat, weight: T -> nat)
    requires i < |s|
    ensures Sum(s[..i] + s[i + 1..], weight) + weight(s[i]) == Sum(s, weight)
  {
    hide Sum;
    var a, b := s[..i], s[i + 1..];
    assert s == (a + [s[i]]) + b;
    SumAppend(a + [s[i]], b, weight);
    SumPush(a, s[i], weight);
    SumAppend(a, b, weight);
  }

  /** Replacing one element replaces its weight. */
  lemma SumUpdate<T>(s: seq<T>, i: nat, x: T, weight: T -> nat)
    requires i < |s|
    ensures Sum(s[i := x], weight) + weight(s[i]) == Sum(s, weight) + weight(x)
  {
    hide Sum;
    assert s[i := x][..i] + s[i := x][i + 1..] == s[..i] + s[i + 1..];
    SumCut(s, i, weight);
    SumCut(s[i := x], i, weight);
  }

  /** Replacing elements by others of the same weight changes nothing. */
  lemma {:induction false} SumSame<T>(s: seq<T>, r: seq<T>, weight: T -> nat)
    requires |s| == |r| && forall i :: 0 <= i < |s| ==> weight(r[i]) == weight(s[i])
    ensures Sum(r, weight) == Sum(s, weight)
  {
    if s != [] {
      SumSame(s[1..], r[1..], weight);
    }
  }

  lemma {:induction false} SumZero<T>(s: seq<T>, weight: T -> nat)
    requires forall i :: 0 <= i < |s| ==> weight(s[i]) == 0
    ensures Sum(s, weight) == 0
  {
    if s != [] {
      SumZero(s[1..], weight);
    }
  }

  /** No element weighs more than all together, nor do two. */
  lemma SumAtLeast<T>(s: seq<T>, i: nat, weight: T -> nat)
    requires i < |s|
    ensures weight(s[i]) <= Sum(s, weight)
  {
    hide Sum;
    SumCut(s, i, weight);
  }

  /** An element with a weight, when there is one. */
  lemma {:induction false} Heavy<T>(s: seq<T>, weight: T -> nat) returns (i: nat)
    requires Sum(s, weight) > 0
    ensures i < |s| && weight(s[i]) > 0
  {
    if weight(s[0]) > 0 {
      i := 0;
    } else {
      i := Heavy(s[1..], weight);
      i := i + 1;
    }
  }
}
