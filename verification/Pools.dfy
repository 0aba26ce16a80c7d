/**
 * Threads that share a queue guarded by a mutex and one condition variable: the worker pool and
 * the parser pool have the same life cycle, and the same argument that no wakeup is lost.
 */
module Pools {
  import opened Sums

  /**
   * Where a thread is between two atomic steps: about to test the wait predicate, blocked on the
   * condition variable, working on something it took, about to call `notify_one`, or returned.
   */
  datatype Thread<T> = Ready | Asleep | Busy(work: T) | Notifying | Exited

  datatype Tag = IsReady | IsAsleep | IsBusy | IsNotifying | IsExited

  type Pool<T> = seq<Thread<T>>

  function TagOf<T>(t: Thread<T>): Tag {
    match t
    case Ready => IsReady
    case Asleep => IsAsleep
    case Busy(_) => IsBusy
    case Notifying => IsNotifying
    case Exited => IsExited
  }

  function Tagged<T>(tag: Tag): Thread<T> -> nat {
    (t: Thread<T>) => One(TagOf(t) == tag)
  }

  /** How many threads of a pool are in the given place. */
  function Count<T>(pool: Pool<T>, tag: Tag): nat {
    Sum(pool, Tagged(tag))
  }

  lemma CountUpdate<T>(pool: Pool<T>, i: nat, t: Thread<T>, tag: Tag)
    requires i < |pool|
    ensures Count(pool[i := t], tag) + One(TagOf(pool[i]) == tag) == Count(pool, tag) + One(TagOf(t) == tag)
  {
    SumUpdate(pool, i, t, Tagged(tag));
  }

  lemma CountPositive<T>(pool: Pool<T>, i: nat)
    requires i < |pool|
    ensures Count(pool, TagOf(pool[i])) > 0
  {
    SumAtLeast(pool, i, Tagged(TagOf(pool[i])));
  }

  /** A thread with the given tag, when there is one. */
  lemma FindThread<T>(pool: Pool<T>, tag: Tag) returns (i: nat)
    requires Count(pool, tag) > 0
    ensures i < |pool| && TagOf(pool[i]) == tag
  {
    i := Heavy(pool, Tagged(tag));
  }

  lemma {:induction false} CountTotal<T>(pool: Pool<T>)
    ensures Count(pool, IsReady) + Count(pool, IsAsleep) + Count(pool, IsBusy)
            + Count(pool, IsNotifying) + Count(pool, IsExited) == |pool|
  {
    if pool != [] {
      CountTotal(pool[1..]);
    }
  }

  /** The number of threads in each place. */
  datatype Census = Census(ready: nat, asleep: nat, busy: nat, notifying: nat, exited: nat)

  function CensusOf<T>(pool: Pool<T>): Census {
    Census(Count(pool, IsReady), Count(pool, IsAsleep), Count(pool, IsBusy),
           Count(pool, IsNotifying), Count(pool, IsExited))
  }

  lemma CensusTotal<T>(pool: Pool<T>)
    ensures var c := CensusOf(pool); c.ready + c.asleep + c.busy + c.notifying + c.exited == |pool|
  {
    CountTotal(pool);
  }

  /** `c` with one thread moved from place `a` to place `b`. */
  function Moved(c: Census, a: Tag, b: Tag): Census
    requires a == IsReady ==> c.ready > 0
    requires a == IsAsleep ==> c.asleep > 0
    requires a == IsBusy ==> c.busy > 0
    requires a == IsNotifying ==> c.notifying > 0
    requires a == IsExited ==> c.exited > 0
  {
    Census(
      c.ready - One(a == IsReady) + One(b == IsReady),
      c.asleep - One(a == IsAsleep) + One(b == IsAsleep),
      c.busy - One(a == IsBusy) + One(b == IsBusy),
      c.notifying - One(a == IsNotifying) + One(b == IsNotifying),
      c.exited - One(a == IsExited) + One(b == IsExited))
  }

  /** Moving one thread moves one unit of the census. */
  lemma CensusUpdate<T>(pool: Pool<T>, i: nat, t: Thread<T>)
    requires i < |pool|
    ensures var c, a := CensusOf(pool), TagOf(pool[i]);
            && (a == IsReady ==> c.ready > 0) && (a == IsAsleep ==> c.asleep > 0)
            && (a == IsBusy ==> c.busy > 0) && (a == IsNotifying ==> c.notifying > 0)
            && (a == IsExited ==> c.exited > 0)
            && CensusOf(pool[i := t]) == Moved(c, a, TagOf(t))
  {
    hide Count;
    CountPositive(pool, i);
    CountUpdate(pool, i, t, IsReady);
    CountUpdate(pool, i, t, IsAsleep);
    CountUpdate(pool, i, t, IsBusy);
    CountUpdate(pool, i, t, IsNotifying);
    CountUpdate(pool, i, t, IsExited);
  }

  /** `notify_one`: any blocked thread may be the one that wakes; with none blocked it is lost. */
  predicate MayWake<T>(pool: Pool<T>, who: nat) {
    Count(pool, IsAsleep) > 0 ==> who < |pool| && pool[who].Asleep?
  }

  function WakeOne<T>(pool: Pool<T>, who: nat): (r: Pool<T>)
    ensures |r| == |pool|
    ensures forall i :: 0 <= i < |pool| && !pool[i].Asleep? ==> r[i] == pool[i]
    ensures forall i :: 0 <= i < |pool| && pool[i].Asleep? ==> r[i] == pool[i] || r[i] == Ready
  {
    if who < |pool| && pool[who].Asleep? then pool[who := Ready] else pool
  }

  lemma CensusWakeOne<T>(pool: Pool<T>, who: nat)
    requires MayWake(pool, who)
    ensures CensusOf(WakeOne(pool, who)) ==
            if CensusOf(pool).asleep > 0 then Moved(CensusOf(pool), IsAsleep, IsReady) else CensusOf(pool)
  {
    if who < |pool| && pool[who].Asleep? {
      CensusUpdate<T>(pool, who, Ready);
    }
  }

  /** `notify_all`. */
  function WakeAll<T>(pool: Pool<T>): (r: Pool<T>)
    ensures |r| == |pool|
    ensures forall i :: 0 <= i < |pool| ==> r[i] == if pool[i].Asleep? then Ready else pool[i]
  {
    if pool == [] then [] else [if pool[0].Asleep? then Ready else pool[0]] + WakeAll(pool[1..])
  }

  lemma {:induction false} CensusWakeAll<T>(pool: Pool<T>)
    ensures var c := CensusOf(pool);
            CensusOf(WakeAll(pool)) == c.(ready := c.ready + c.asleep, asleep := 0)
  {
    if pool != [] {
      CensusWakeAll(pool[1..]);
      assert WakeAll(pool)[1..] == WakeAll(pool[1..]);
    }
  }

  /**
   * What the wait discipline guarantees about a pool, given the length of the queue, the number
   * of `notify_one` calls still to be made, the exit condition, and whether a `notify_all` is
   * still to be made:
   * nobody sleeps while there is more work than threads and notifications on the way to it,
   * nobody sleeps through the exit condition, and threads leave only under it.
   */
  predicate Wakeful(c: Census, queued: nat, notifies: nat, mayExit: bool, broadcast: bool) {
    && (c.asleep > 0 ==> queued <= c.ready + notifies)
    && (c.asleep > 0 && mayExit ==> broadcast)
    && (c.exited > 0 ==> mayExit && queued == 0)
  }
}
