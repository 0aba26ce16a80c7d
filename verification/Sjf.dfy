/** Shortest job first: the order in which a queue without arrivals drains, and why it is a good one. */
module Sjf {
  import opened Common
  import opened Rounds
  import opened Queues

  function Without(items: seq<Job>, i: nat): seq<Job>
    requires i < |items|
  {
    items[..i] + items[i + 1..]
  }

  /** The requests in the order repeated `WaitPopBest` calls return them. */
  function DrainOrder(items: seq<Job>): (out: seq<Job>)
    ensures |out| == |items|
    decreases |items|
  {
    if items == [] then []
    else
      var b := BestIndex(items);
      [items[b]] + DrainOrder(Without(items, b))
  }

  /** Jobs that SJF does not tell apart. */
  predicate SameKey(a: Job, b: Job) {
    a.total == b.total && a.arrival == b.arrival
  }

  /** The jobs with the same key as `k`, in their order. */
  function Tied(items: seq<Job>, k: Job): seq<Job> {
    if items == [] then []
    else (if SameKey(items[0], k) then [items[0]] else []) + Tied(items[1..], k)
  }

  ghost predicate Sorted(items: seq<Job>) {
    forall i, j :: 0 <= i < j < |items| ==>
      || items[i].total < items[j].total
      || (items[i].total == items[j].total && items[i].arrival <= items[j].arrival)
  }

  /** `out` is the stable sort of `items`: sorted, and ties keep their order. */
  ghost predicate IsStableSort(items: seq<Job>, out: seq<Job>) {
    && Sorted(out)
    && (forall k: Job :: Tied(out, k) == Tied(items, k))
  }

  lemma {:induction false} TiedAppend(a: seq<Job>, b: seq<Job>, k: Job)
    ensures Tied(a + b, k) == Tied(a, k) + Tied(b, k)
  {
    if a == [] {
      assert a + b == b;
    } else {
      assert (a + b)[1..] == a[1..] + b;
      TiedAppend(a[1..], b, k);
    }
  }

  lemma {:induction false} TiedNone(a: seq<Job>, k: Job)
    requires forall i :: 0 <= i < |a| ==> !SameKey(a[i], k)
    ensures Tied(a, k) == []
  {
    if a != [] {
      TiedNone(a[1..], k);
    }
  }

  /** Moving a job ahead of jobs with other keys keeps the order of ties. */
  lemma TiedMove(head: seq<Job>, x: Job, tail: seq<Job>, k: Job)
    requires forall i :: 0 <= i < |head| ==> !SameKey(head[i], x)
    ensures Tied([x] + (head + tail), k) == Tied(head + ([x] + tail), k)
  {
    TiedAppend(head, [x] + tail, k);
    TiedAppend([x], tail, k);
    TiedAppend(head, tail, k);
    TiedAppend([x], head + tail, k);
    if SameKey(x, k) {
      TiedNone(head, k);
    } else {
      TiedNone([x], k);
    }
  }

  /** Taking the best job out and putting it first keeps the order of ties. */
  lemma TiedWithoutBest(items: seq<Job>, k: Job)
    requires items != []
    ensures var b := BestIndex(items);
            Tied([items[b]] + Without(items, b), k) == Tied(items, k)
  {
    hide Tied, BestIndex;
    var b := BestIndex(items);
    assert items == items[..b] + ([items[b]] + items[b + 1..]);
    TiedMove(items[..b], items[b], items[b + 1..], k);
  }

  lemma {:induction false} DrainKeepsElements(items: seq<Job>)
    ensures multiset(DrainOrder(items)) == multiset(items)
    decreases |items|
  {
    if items != [] {
      hide BestIndex, IsBest, DrainOrder;
      DrainUnfold(items);
      var out := DrainOrder(items);
      DrainKeepsElements(Without(items, BestIndex(items)));
      MovedToFront(items, BestIndex(items), out);
    }
  }

  lemma MovedToFront(items: seq<Job>, b: nat, out: seq<Job>)
    requires b < |items| && out != [] && out[0] == items[b]
    requires multiset(out[1..]) == multiset(Without(items, b))
    ensures multiset(out) == multiset(items)
  {
    MultisetCut(items, b);
    MultisetTail(out);
    MultisetPutBack(multiset(out), multiset(items), items[b]);
  }

  lemma DrainUnfold(items: seq<Job>)
    requires items != []
    ensures var b := BestIndex(items);
            DrainOrder(items) != [] && DrainOrder(items)[0] == items[b] && DrainOrder(items)[1..] == DrainOrder(Without(items, b))
  {
    hide BestIndex, IsBest;
  }

  /** Repeated `WaitPopBest` is a stable sort by (bytes, arrival). */
  lemma {:induction false} DrainIsStableSort(items: seq<Job>)
    ensures IsStableSort(items, DrainOrder(items))
    decreases |items|
  {
    if items != [] {
      hide DrainOrder, BestIndex, IsBest, Sorted;
      DrainUnfold(items);
      var b, out := BestIndex(items), DrainOrder(items);
      var rest := Without(items, b);
      DrainIsStableSort(rest);
      DrainSorted(items, out);
      forall k: Job
        ensures Tied(out, k) == Tied(items, k)
      {
        TiedWithoutBest(items, k);
        TiedAppend([items[b]], rest, k);
        TiedAppend([items[b]], out[1..], k);
        assert out == [items[b]] + out[1..];
      }
    }
  }

  lemma DrainSorted(items: seq<Job>, out: seq<Job>)
    requires items != [] && out == DrainOrder(items)
    requires Sorted(DrainOrder(Without(items, BestIndex(items))))
    ensures Sorted(out)
  {
    hide DrainOrder, BestIndex;
    DrainUnfold(items);
    DrainKeepsElements(items);
    forall i, j | 0 <= i < j < |out|
      ensures !Before(out[j], out[i])
    {
      assert out[j] == out[1..][j - 1];
      if i > 0 {
        assert out[i] == out[1..][i - 1];
      } else {
        assert out[j] in multiset(out);
        assert out[j] in items;
      }
    }
  }

  /** There is only one stable sort, so `IsStableSort` determines the drain order. */
  lemma StableSortIsUnique(items: seq<Job>, a: seq<Job>, b: seq<Job>)
    requires IsStableSort(items, a) && IsStableSort(items, b)
    ensures a == b
  {
    forall k: Job
      ensures Tied(a, k) == Tied(b, k)
    {
      assert Tied(a, k) == Tied(items, k);
    }
    SortedTiesDetermine(a, b);
  }

  lemma {:induction false} SortedTiesDetermine(a: seq<Job>, b: seq<Job>)
    requires Sorted(a) && Sorted(b)
    requires forall k: Job :: Tied(a, k) == Tied(b, k)
    ensures a == b
  {
    if a != [] && b != [] {
      SameHead(a, b);
      forall k: Job
        ensures Tied(a[1..], k) == Tied(b[1..], k)
      {
        TiedTail(a, b, k);
      }
      SortedTiesDetermine(a[1..], b[1..]);
      assert a == [a[0]] + a[1..] && b == [b[0]] + b[1..];
    } else if a != [] {
      var ties := Tied(b, a[0]);
    } else if b != [] {
      var ties := Tied(a, b[0]);
    }
  }

  lemma SameHead(a: seq<Job>, b: seq<Job>)
    requires Sorted(a) && Sorted(b) && a != [] && b != []
    requires forall k: Job :: Tied(a, k) == Tied(b, k)
    ensures a[0] == b[0]
  {
    HeadIsLeast(a, b, b[0]);
    HeadIsLeast(b, a, a[0]);
    assert Tied(a, a[0])[0] == a[0] && Tied(b, a[0])[0] == b[0];
  }

  lemma TiedTail(a: seq<Job>, b: seq<Job>, k: Job)
    requires a != [] && b != [] && a[0] == b[0]
    requires Tied(a, k) == Tied(b, k)
    ensures Tied(a[1..], k) == Tied(b[1..], k)
  {
    var first := if SameKey(a[0], k) then [a[0]] else [];
    assert Tied(a, k)[|first|..] == Tied(a[1..], k);
    assert Tied(b, k)[|first|..] == Tied(b[1..], k);
  }

  /** A key present in one of two sequences with equal ties is not before the head of the other. */
  lemma HeadIsLeast(a: seq<Job>, b: seq<Job>, k: Job)
    requires Sorted(a) && a != [] && Tied(b, k) != []
    requires Tied(a, k) == Tied(b, k)
    ensures !Before(k, a[0])
  {
    if forall i :: 0 <= i < |a| ==> !SameKey(a[i], k) {
      TiedNone(a, k);
    }
    var i :| 0 <= i < |a| && SameKey(a[i], k);
    assert i == 0 || !Before(a[i], a[0]);
  }

  /** One SJF worker on a queue without arrivals: take the best request, complete it, until none is left. */
  method Drain(queue: RequestQueue) returns (out: seq<Job>)
    modifies queue`items, queue`inflight
    ensures out == DrainOrder(old(queue.items))
    ensures queue.items == [] && queue.closed == old(queue.closed) && queue.inflight == old(queue.inflight)
  {
    hide BestIndex, IsBest;
    out := [];
    while queue.items != []
      invariant out + DrainOrder(queue.items) == DrainOrder(old(queue.items))
      invariant queue.inflight == old(queue.inflight)
      decreases |queue.items|
    {
      ghost var items := queue.items;
      var request := queue.WaitPopBest();
      assert DrainOrder(items) == [request.value] + DrainOrder(queue.items);
      assert (out + [request.value]) + DrainOrder(queue.items) == out + DrainOrder(items);
      out := out + [request.value];
      queue.Complete();
    }
    assert out + [] == out;
  }

  // ----- Completion points -----

  function Total(sizes: seq<nat>): nat {
    if sizes == [] then 0 else sizes[0] + Total(sizes[1..])
  }

  /** For each transfer, the bytes sent when it completes; `sent` were sent before the first starts. */
  function CompletionPoints(sizes: seq<nat>, sent: nat): seq<nat> {
    if sizes == [] then [] else [sent + sizes[0]] + CompletionPoints(sizes[1..], sent + sizes[0])
  }

  /** The sum of the completion points: a transfer counts for itself and for all that wait for it. */
  function CompletionSum(sizes: seq<nat>): nat {
    if sizes == [] then 0 else sizes[0] * |sizes| + CompletionSum(sizes[1..])
  }

  lemma {:induction false} CompletionSumIs(sizes: seq<nat>, sent: nat)
    ensures Total(CompletionPoints(sizes, sent)) == sent * |sizes| + CompletionSum(sizes)
  {
    if sizes != [] {
      var x, rest := sizes[0], sizes[1..];
      CompletionSumIs(rest, sent + x);
      PointsUnfold(sizes, sent);
      hide CompletionPoints, Total;
      Shares(sent, x, |rest|);
    }
  }

  lemma PointsUnfold(sizes: seq<nat>, sent: nat)
    requires sizes != []
    ensures Total(CompletionPoints(sizes, sent)) == sent + sizes[0] + Total(CompletionPoints(sizes[1..], sent + sizes[0]))
  {
    assert CompletionPoints(sizes, sent)[1..] == CompletionPoints(sizes[1..], sent + sizes[0]);
  }

  lemma Shares(sent: nat, x: nat, n: nat)
    ensures sent + x + (sent + x) * n == sent * (n + 1) + x * (n + 1)
  {
    assert (sent + x) * n == sent * n + x * n;
    assert sent * (n + 1) == sent * n + sent && x * (n + 1) == x * n + x;
  }

  ghost predicate Ascending(sizes: seq<nat>) {
    forall i, j :: 0 <= i < j < |sizes| ==> sizes[i] <= sizes[j]
  }

  /** Serving a smallest transfer first instead of later does not increase the sum. */
  lemma {:induction false} SmallestFirst(a: seq<nat>, m: nat, b: seq<nat>)
    requires forall i :: 0 <= i < |a| ==> m <= a[i]
    ensures CompletionSum(a + ([m] + b)) >= m * (|a| + |b| + 1) + CompletionSum(a + b)
  {
    if a == [] {
      assert a + ([m] + b) == [m] + b && a + b == b;
      assert ([m] + b)[1..] == b;
    } else {
      var x, rest, n := a[0], a[1..], |a| + |b|;
      SmallestFirst(rest, m, b);
      assert (a + ([m] + b))[1..] == rest + ([m] + b);
      assert (a + b)[1..] == rest + b;
      SwapCost(m, x, n);
    }
  }

  lemma SwapCost(m: nat, x: nat, n: nat)
    requires m <= x
    ensures m * (n + 1) + x * n <= x * (n + 1) + m * n
  {
    assert m * (n + 1) == m * n + m && x * (n + 1) == x * n + x;
  }

  lemma FirstToFront(p: seq<nat>, i: nat)
    requires i < |p| && forall j :: 0 <= j < i ==> p[i] <= p[j]
    ensures CompletionSum(p) >= p[i] * |p| + CompletionSum(p[..i] + p[i + 1..])
  {
    hide CompletionSum;
    assert p == p[..i] + ([p[i]] + p[i + 1..]);
    SmallestFirst(p[..i], p[i], p[i + 1..]);
  }

  /** Ascending order minimises the sum over all permutations. */
  lemma {:induction false} AscendingIsOptimal(s: seq<nat>, p: seq<nat>)
    requires Ascending(s) && multiset(s) == multiset(p)
    ensures CompletionSum(s) <= CompletionSum(p)
    decreases |s|
  {
    assert |s| == |multiset(s)| == |multiset(p)| == |p|;
    if s != [] {
      MultisetTail(s);
      var i := IndexOf(p, s[0]);
      MultisetCut(p, i);
      AscendingIsOptimal(s[1..], p[..i] + p[i + 1..]);
      forall j | 0 <= j < i
        ensures p[i] <= p[j]
      {
        assert p[j] in multiset(s);
      }
      FirstToFront(p, i);
    }
  }

  function Sizes(items: seq<Job>): (sizes: seq<nat>)
    ensures |sizes| == |items| && forall i :: 0 <= i < |items| ==> sizes[i] == items[i].total
  {
    seq(|items|, i requires 0 <= i < |items| => items[i].total)
  }

  lemma SizesCut(items: seq<Job>, i: nat)
    requires i < |items|
    ensures multiset(Sizes(items)) == multiset(Sizes(Without(items, i))) + multiset{items[i].total}
  {
    var sizes := Sizes(items);
    assert Sizes(Without(items, i)) == sizes[..i] + sizes[i + 1..];
    MultisetCut(sizes, i);
  }

  lemma {:induction false} SizesOfPermutation(a: seq<Job>, b: seq<Job>)
    requires multiset(a) == multiset(b)
    ensures multiset(Sizes(a)) == multiset(Sizes(b))
    decreases |a|
  {
    assert |a| == |multiset(a)| == |multiset(b)| == |b|;
    if a != [] {
      MultisetTail(a);
      var i := IndexOf(b, a[0]);
      MultisetCut(b, i);
      SizesOfPermutation(a[1..], Without(b, i));
      assert Without(a, 0) == a[1..];
      SizesCut(a, 0);
      SizesCut(b, i);
    } else {
      assert Sizes(a) == Sizes(b);
    }
  }

  /** With one worker, no other service order of the queued requests has a smaller sum. */
  lemma DrainMinimisesCompletion(items: seq<Job>, other: seq<Job>)
    requires multiset(other) == multiset(items)
    ensures Total(CompletionPoints(Sizes(DrainOrder(items)), 0)) <= Total(CompletionPoints(Sizes(other), 0))
  {
    CompletionSumIs(Sizes(DrainOrder(items)), 0);
    CompletionSumIs(Sizes(other), 0);
    DrainIsStableSort(items);
    DrainKeepsElements(items);
    SizesOfPermutation(DrainOrder(items), other);
    AscendingIsOptimal(Sizes(DrainOrder(items)), Sizes(other));
  }
}
