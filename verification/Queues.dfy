/** The request queue and the connection queue: queue.h and queue.cpp, one call at a time. */
module Queues {
  import opened Common
  import opened Rounds

  /** State of the request queue between two calls. */
  datatype QueueState<T> = QueueState(items: seq<T>, closed: bool, inflight: nat) {
    /** The predicate workers wait for. */
    predicate MayReturn() {
      items != [] || (closed && inflight == 0)
    }

    /** A new request is admitted at the tail, unless the queue is closed. */
    function Pushed(x: T): QueueState<T> {
      if closed then this else this.(items := items + [x])
    }

    function PoppedAt(i: nat): QueueState<T>
      requires i < |items|
    {
      this.(items := items[..i] + items[i + 1..], inflight := inflight + 1)
    }

    /** A preempted request goes to the tail, also when the queue is closed. */
    function Requeued(x: T): QueueState<T> {
      this.(items := items + [x], inflight := if inflight > 0 then inflight - 1 else 0)
    }

    function Completed(): QueueState<T> {
      this.(inflight := if inflight > 0 then inflight - 1 else 0)
    }
  }

  /** SJF order: fewer bytes first, then earlier arrival. */
  predicate Before(a: Job, b: Job) {
    if a.total != b.total then a.total < b.total else a.arrival < b.arrival
  }

  /** The order in terms of the fields. */
  lemma BeforeMeans(a: Job, b: Job)
    ensures Before(a, b) <==> a.total < b.total || (a.total == b.total && a.arrival < b.arrival)
    ensures !Before(b, a) <==> a.total < b.total || (a.total == b.total && a.arrival <= b.arrival)
  {
  }

  /**
   * The job SJF takes next: none has fewer bytes, none with as many arrived earlier, and none ahead
   * of it in the queue has as many bytes and arrived at the same time.
   */
  ghost predicate IsBest(items: seq<Job>, b: nat) {
    && b < |items|
    && (forall i :: 0 <= i < |items| ==>
          || items[b].total < items[i].total
          || (items[b].total == items[i].total && items[b].arrival <= items[i].arrival))
    && (forall i :: 0 <= i < b ==>
          || items[b].total < items[i].total
          || (items[b].total == items[i].total && items[b].arrival < items[i].arrival))
  }

  function BestIndex(items: seq<Job>): (b: nat)
    requires items != []
    ensures b < |items| && IsBest(items, b)
  {
    var last := |items| - 1;
    if last == 0 then 0
    else
      var b := BestIndex(items[..last]);
      if Before(items[last], items[b]) then last else b
  }

  lemma BestIsUnique(items: seq<Job>, a: nat, b: nat)
    requires IsBest(items, a) && IsBest(items, b)
    ensures a == b
  {
    assert items[a].total == items[b].total && items[a].arrival == items[b].arrival;
  }

  class RequestQueue {
    var items: seq<Job>
    var closed: bool
    var inflight: nat

    constructor ()
      ensures State() == QueueState([], false, 0)
    {
      items, closed, inflight := [], false, 0;
    }

    function State(): QueueState<Job>
      reads this
    {
      QueueState(items, closed, inflight)
    }

    method Push(request: Job) returns (ok: bool)
      modifies this`items
      ensures ok <==> !closed
      ensures State() == old(State()).Pushed(request)
    {
      if closed {
        return false;
      }
      items := items + [request];
      return true;
    }

    /** Returns from the wait with the oldest request, or with nothing when all work is done. */
    method WaitPop() returns (request: Option<Job>)
      requires State().MayReturn()
      modifies this`items, this`inflight
      ensures request.None? <==> old(items) == []
      ensures request.None? ==> State() == old(State()) && closed && inflight == 0
      ensures request.Some? ==> request.value == old(items)[0] && State() == old(State()).PoppedAt(0)
    {
      if items == [] {
        return None;
      }
      request := Some(items[0]);
      items := items[1..];
      inflight := inflight + 1;
      assert old(items)[..0] + old(items)[0 + 1..] == items;
    }

    /** Never waits. */
    method TryPop() returns (request: Option<Job>)
      modifies this`items, this`inflight
      ensures request.None? <==> old(items) == []
      ensures request.None? ==> State() == old(State())
      ensures request.Some? ==> request.value == old(items)[0] && State() == old(State()).PoppedAt(0)
    {
      if items == [] {
        return None;
      }
      request := Some(items[0]);
      items := items[1..];
      inflight := inflight + 1;
      assert old(items)[..0] + old(items)[0 + 1..] == items;
    }

    /** Like `WaitPop`, but takes the best request and leaves the order of the others alone. */
    method WaitPopBest() returns (request: Option<Job>)
      requires State().MayReturn()
      modifies this`items, this`inflight
      ensures request.None? <==> old(items) == []
      ensures request.None? ==> State() == old(State()) && closed && inflight == 0
      ensures request.Some? ==>
                var b := BestIndex(old(items));
                request.value == old(items)[b] && State() == old(State()).PoppedAt(b)
      ensures request.Some? ==>
                forall x :: x in old(items) ==>
                  || request.value.total < x.total
                  || (request.value.total == x.total && request.value.arrival <= x.arrival)
    {
      if items == [] {
        return None;
      }
      var best, it := 0, 1;
      while it != |items|
        invariant 1 <= it <= |items|
        invariant IsBest(items[..it], best)
      {
        if Before(items[it], items[best]) {
          best := it;
        }
        it := it + 1;
      }
      assert items[..it] == items;
      BestIsUnique(items, best, BestIndex(items));
      request := Some(items[best]);
      items := items[..best] + items[best + 1..];
      inflight := inflight + 1;
    }

    method Requeue(request: Job) returns (ok: bool)
      modifies this`items, this`inflight
      ensures ok && State() == old(State()).Requeued(request)
    {
      if inflight > 0 {
        inflight := inflight - 1;
      }
      items := items + [request];
      return true;
    }

    method Complete()
      modifies this`inflight
      ensures State() == old(State()).Completed()
    {
      if inflight > 0 {
        inflight := inflight - 1;
      }
    }

    method Close()
      modifies this`closed
      ensures closed
    {
      closed := true;
    }

    method Size() returns (n: nat)
      ensures n == |items|
    {
      return |items|;
    }
  }

  /** Accepted connections on their way from the acceptor to the parsers. */
  class FdQueue {
    var items: seq<nat>
    var closed: bool

    constructor ()
      ensures items == [] && !closed
    {
      items, closed := [], false;
    }

    method Push(fd: nat) returns (ok: bool)
      modifies this`items
      ensures ok <==> !closed
      ensures items == if ok then old(items) + [fd] else old(items)
    {
      if closed {
        return false;
      }
      items := items + [fd];
      return true;
    }

    /** Returns from the wait; a closed queue is still drained before it reports the end. */
    method WaitPop() returns (fd: Option<nat>)
      requires items != [] || closed
      modifies this`items
      ensures fd.None? ==> old(items) == items == [] && closed
      ensures fd.Some? ==> old(items) == [fd.value] + items
    {
      if items == [] {
        return None;
      }
      fd := Some(items[0]);
      items := items[1..];
    }

    method Close()
      modifies this`closed
      ensures closed
    {
      closed := true;
    }
  }
}
