/** Which request a worker of the whole server takes next, and in which order SJF serves. */
module ServerOrder {
  import opened Rounds
  import opened Queues
  import opened Pools
  import opened Tasks
  import opened Protocol
  import opened Safety
  import opened Conservation
  import Sjf

  /**
   * Under SJF a worker takes a request with the fewest bytes of all that are queued, among those
   * one that arrived first, and among those the one that is first in the queue.
   */
  lemma SjfTakesSmallest(c: Config, s: State, w: nat)
    requires c.policy.SJF? && Enabled(c, s, Take(w))
    ensures w < |Next(c, s, Take(w)).workers|
    ensures exists i ::
              && 0 <= i < |s.queue.items|
              && Next(c, s, Take(w)).workers[w] == Busy(s.queue.items[i])
              && (forall k :: 0 <= k < |s.queue.items| ==>
                    var a, b := s.queue.items[i].job, s.queue.items[k].job;
                    a.total < b.total || (a.total == b.total && a.arrival <= b.arrival))
              && (forall k :: 0 <= k < i ==>
                    var a, b := s.queue.items[i].job, s.queue.items[k].job;
                    a.total < b.total || (a.total == b.total && a.arrival < b.arrival))
  {
    hide NextOfParser, NextOfOther, BestIndex;
    var i, jobs := Chosen(c, s.queue.items), Jobs(s.queue.items);
    assert IsBest(jobs, i);
    assert forall k :: 0 <= k < |s.queue.items| ==> s.queue.items[k].job == jobs[k];
    assert Next(c, s, Take(w)).workers[w] == Busy(s.queue.items[i]);
  }

  /** The requests taken in a run, in order. */
  function Taken(c: Config, s: State, steps: seq<Step>): seq<Job>
    requires IsRun(c, s, steps)
    decreases |steps|
  {
    if steps == [] then []
    else
      var rest := Taken(c, Next(c, s, steps[0]), steps[1..]);
      if steps[0].Take? then [s.queue.items[Chosen(c, s.queue.items)].job] + rest else rest
  }

  /** SJF serves every request to its end in one round, so none is put back. */
  lemma SjfPutsNothingBack(c: Config, s: State, w: nat)
    requires c.policy.SJF? && TasksInv(c, s)
    ensures !Enabled(c, s, PutBack(w))
  {
    hide Tasks.RunOf, StreamOf, SentBy, Complete;
    if Serving(s, w) {
      var t := s.workers[w].work;
      assert Waiting(c, t);
      SjfServesAll(c, t);
    }
  }

  lemma SjfServesAll(c: Config, t: Task)
    requires c.policy.SJF? && Shaped(t)
    ensures Served(c, t).job.Remaining() == 0
  {
    hide SentBy, StagingName, Overruns;
  }

  /** Without arrivals the queue changes only by what is taken. */
  lemma OnlyTakes(c: Config, s: State, st: Step)
    requires Enabled(c, s, st) && !st.Enqueue? && !st.PutBack? && !st.Take?
    ensures Next(c, s, st).queue.items == s.queue.items
  {
    hide Served, Shaped, Admissible, MayWake, WakeOne, WakeAll, Chosen;
    if st.Parser().Some? {
      hide NextOfWorker, NextOfOther;
    } else if st.Worker().Some? {
      hide NextOfParser, NextOfOther;
    } else {
      hide NextOfParser, NextOfWorker;
    }
  }

  lemma TakeCuts(c: Config, s: State, st: Step)
    requires c.policy.SJF? && Enabled(c, s, st) && st.Take?
    ensures s.queue.items != []
    ensures var i := BestIndex(Jobs(s.queue.items));
            && Chosen(c, s.queue.items) == i
            && Jobs(Next(c, s, st).queue.items) == Sjf.Without(Jobs(s.queue.items), i)
  {
    hide NextOfParser, NextOfOther, BestIndex, IsBest;
  }

  /**
   * In every run of the server under SJF in which no request is queued, with any number of workers,
   * the requests are taken in the order in which the queue drains.
   */
  lemma {:induction false} SjfTakesInDrainOrder(c: Config, s: State, steps: seq<Step>)
    requires c.policy.SJF? && Inv(c, s) && IsRun(c, s, steps)
    requires forall k :: 0 <= k < |steps| ==> !steps[k].Enqueue?
    ensures Taken(c, s, steps) <= Sjf.DrainOrder(Jobs(s.queue.items))
    decreases |steps|
  {
    if steps != [] {
      hide Enabled, Next, BestIndex, IsBest, Sjf.DrainOrder, IntakeInv, ShutdownInv, WorkInv, TasksInv, IdInv, Chosen;
      var st, jobs := steps[0], Jobs(s.queue.items);
      StepKeeps(c, s, st);
      SjfTakesInDrainOrder(c, Next(c, s, st), steps[1..]);
      if st.Take? {
        TakeCuts(c, s, st);
        Sjf.DrainUnfold(jobs);
        HeadThenRest(jobs[BestIndex(jobs)], Taken(c, Next(c, s, st), steps[1..]), Sjf.DrainOrder(jobs));
      } else {
        if st.PutBack? {
          SjfPutsNothingBack(c, s, st.w);
        }
        OnlyTakes(c, s, st);
      }
    }
  }

  lemma HeadThenRest(x: Job, rest: seq<Job>, order: seq<Job>)
    requires order != [] && order[0] == x && rest <= order[1..]
    ensures [x] + rest <= order
  {
    assert order == [x] + order[1..];
  }

  /** In the fields: of two requests taken one after the other, the first has no more bytes, and with as many came no later. */
  lemma SjfServesInOrder(c: Config, s: State, steps: seq<Step>, i: nat, j: nat)
    requires c.policy.SJF? && Inv(c, s) && IsRun(c, s, steps)
    requires forall k :: 0 <= k < |steps| ==> !steps[k].Enqueue?
    requires i < j < |Taken(c, s, steps)|
    ensures var a, b := Taken(c, s, steps)[i], Taken(c, s, steps)[j];
            a.total < b.total || (a.total == b.total && a.arrival <= b.arrival)
  {
    hide Inv, IsRun, Sjf.DrainOrder, Taken;
    SjfTakesInDrainOrder(c, s, steps);
    Sjf.DrainIsStableSort(Jobs(s.queue.items));
    var out := Sjf.DrainOrder(Jobs(s.queue.items));
    assert Taken(c, s, steps)[i] == out[i] && Taken(c, s, steps)[j] == out[j];
  }
}
