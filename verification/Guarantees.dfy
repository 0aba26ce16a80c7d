/** What the invariants promise of the server itself: of every run from its start. */
module Guarantees {
  import opened Rounds
  import opened Delivery
  import opened Queues
  import opened Pools
  import opened Tasks
  import opened Protocol
  import opened Safety
  import opened Conservation
  import Liveness
  import Termination

  /** While workers sleep the queued requests have ready workers or notifications on their way. */
  lemma NoLostWakeup(c: Config, s: State)
    requires Reachable(c, s) && CensusOf(s.workers).asleep > 0
    ensures |s.queue.items| <= CensusOf(s.workers).ready + CensusOf(s.workers).notifying
                               + CensusOf(s.parsers).notifying
    ensures CensusOf(s.workers).asleep == |s.workers| && CensusOf(s.parsers).notifying == 0 && s.main != QueueClosing
            ==> s.queue.items == [] && !s.queue.closed
  {
    hide Reachable, Inv;
    ReachableKeeps(c, s);
    Liveness.NoLostWakeup(c, s);
    CensusTotal(s.workers);
  }

  /** Some thread can go on by itself, unless the server is over or idle and not asked to stop. */
  lemma NeverStuck(c: Config, s: State)
    requires Reachable(c, s) && s.main != Over && !(Liveness.Idle(s) && !s.shutdown)
    ensures exists st :: Enabled(c, s, st) && !st.External() && !st.Parse?
  {
    hide Reachable, Inv, Enabled, Liveness.Idle;
    ReachableKeeps(c, s);
    var st := Liveness.Progress(c, s);
    assert Enabled(c, s, st.value);
  }

  /** A worker that has returned leaves nothing undone. */
  lemma ReturnedMeansDrained(c: Config, s: State)
    requires Reachable(c, s) && CensusOf(s.workers).exited > 0
    ensures s.queue.items == [] && s.queue.closed && s.queue.inflight == 0
    ensures forall id :: s.admitted[id] == Times(s.finished, id) + Times(s.failed, id) <= 1
  {
    hide Reachable, Inv;
    ReachableKeeps(c, s);
    Liveness.ReturnedMeansDrained(c, s);
  }

  /**
   * When main ends, every accepted connection was taken and no request refused; each admitted one
   * is finished or failed, once; and every finished GET was sent its whole file.
   */
  lemma OverMeansServed(c: Config, s: State)
    requires Reachable(c, s) && s.main == Over
    ensures s.accepted == s.taken && s.refused == 0
    ensures forall id :: s.admitted[id] == Times(s.finished, id) + Times(s.failed, id) <= 1
    ensures forall i :: 0 <= i < |s.finished| && s.finished[i].job.op.GET? ==>
              s.finished[i].wire == StatusLine(|s.finished[i].body|) + s.finished[i].body
  {
    hide Reachable, Inv, Complete, StatusLine;
    ReachableKeeps(c, s);
    Liveness.OverMeansDone(c, s);
    forall i | 0 <= i < |s.finished| && s.finished[i].job.op.GET?
      ensures s.finished[i].wire == StatusLine(|s.finished[i].body|) + s.finished[i].body
    {
      CompleteGetDelivered(c, s.finished[i]);
    }
  }

  // ----- Shutdown -----

  /** No shutdown has begun. */
  predicate Running(s: State) {
    && !s.shutdown
    && (s.acceptor == Accepting || s.acceptor == FdQueued)
    && !s.fdClosed && !s.queue.closed && s.main == JoiningAcceptor
    && (forall i :: 0 <= i < |s.parsers| ==> !s.parsers[i].Exited?)
    && (forall i :: 0 <= i < |s.workers| ==> !s.workers[i].Exited?)
  }

  lemma RunningStep(c: Config, s: State, st: Step)
    requires Running(s) && Enabled(c, s, st) && !st.Signal?
    ensures Running(Next(c, s, st))
  {
    hide Running, Enabled, Next;
    if st.Parser().Some? {
      RunningStepOfParser(c, s, st);
    } else if st.Worker().Some? {
      RunningStepOfWorker(c, s, st);
    } else {
      RunningStepOfOther(c, s, st);
    }
  }

  lemma RunningStepOfParser(c: Config, s: State, st: Step)
    requires Running(s) && Enabled(c, s, st) && st.Parser().Some?
    ensures Running(Next(c, s, st))
  {
    hide Admissible, MayWake, WakeOne, NextOfWorker, NextOfOther;
  }

  lemma RunningStepOfWorker(c: Config, s: State, st: Step)
    requires Running(s) && Enabled(c, s, st) && st.Worker().Some?
    ensures Running(Next(c, s, st))
  {
    hide Served, Shaped, MayWake, WakeOne, WakeAll, Chosen, NextOfParser, NextOfOther;
  }

  lemma RunningStepOfOther(c: Config, s: State, st: Step)
    requires Running(s) && Enabled(c, s, st) && !st.Signal? && st.Parser().None? && st.Worker().None?
    ensures Running(Next(c, s, st))
  {
    hide MayWake, WakeOne, WakeAll, NextOfParser, NextOfWorker;
  }

  /** As long as no signal arrives the server accepts connections: nothing is closed and no thread returns. */
  lemma {:induction false} RunsUntilAsked(c: Config, s: State, steps: seq<Step>)
    requires Init(s) || Running(s)
    requires IsRun(c, s, steps) && forall k :: 0 <= k < |steps| ==> !steps[k].Signal?
    ensures Running(After(c, s, steps))
    decreases |steps|
  {
    InitRuns(s);
    hide Init, Running, Enabled, Next;
    if steps != [] {
      RunningStep(c, s, steps[0]);
      RunsUntilAsked(c, Next(c, s, steps[0]), steps[1..]);
    }
  }

  lemma InitRuns(s: State)
    requires Init(s) || Running(s)
    ensures Running(s)
  {
  }

  lemma {:induction false} HistoryGrows(c: Config, s: State, steps: seq<Step>)
    requires IsRun(c, s, steps) && forall k :: 0 <= k < |steps| ==> !steps[k].Fail?
    ensures var end := After(c, s, steps);
            && end.failed == s.failed && s.admitted <= end.admitted && (s.shutdown ==> end.shutdown)
    decreases |steps|
  {
    hide Enabled, Next;
    if steps != [] {
      HistoryStep(c, s, steps[0]);
      HistoryGrows(c, Next(c, s, steps[0]), steps[1..]);
    }
  }

  lemma HistoryStep(c: Config, s: State, st: Step)
    requires Enabled(c, s, st) && !st.Fail?
    ensures var n := Next(c, s, st);
            n.failed == s.failed && s.admitted <= n.admitted && (s.shutdown ==> n.shutdown)
  {
    hide Served, Shaped, Admissible, MayWake, WakeOne, WakeAll, Chosen;
    if st.Parser().Some? {
      hide NextOfWorker, NextOfOther;
    } else if st.Worker().Some? {
      hide NextOfParser, NextOfOther;
    } else {
      hide NextOfParser, NextOfWorker;
    }
  }

  /**
   * From every reachable state, by its own steps and without failing any further request, the
   * server can finish every admitted request; and if a shutdown was asked for, it can end.
   */
  lemma EverythingCanFinish(c: Config, s: State) returns (steps: seq<Step>)
    requires Reachable(c, s) && c.Valid()
    ensures IsRun(c, s, steps)
    ensures forall k :: 0 <= k < |steps| ==> !steps[k].External() && !steps[k].Fail?
    ensures var end := After(c, s, steps);
            && end.failed == s.failed
            && (forall id :: s.admitted[id] > Times(s.failed, id) ==> Times(end.finished, id) == 1)
            && (s.shutdown ==> end.main == Over)
  {
    hide Reachable, Inv, IsRun, After, Termination.TaskCost, Termination.GoodCost, Liveness.Idle;
    ReachableKeeps(c, s);
    var cost := (t: Task) => Termination.TaskCost(c, |s.workers|, t);
    Termination.TaskCostIsGood(c, |s.workers|, cost);
    steps := Termination.CanSettle(c, s, cost);
    HistoryGrows(c, s, steps);
    RunKeeps(c, s, steps);
    AllDone(c, After(c, s, steps));
  }

  /** Nothing is left to do when the server is over or idle. */
  lemma AllDone(c: Config, s: State)
    requires Inv(c, s) && (s.main == Over || Liveness.Idle(s))
    ensures forall id :: s.admitted[id] == Times(s.finished, id) + Times(s.failed, id) <= 1
  {
    if s.main == Over {
      hide Inv;
      Liveness.OverMeansDone(c, s);
    } else {
      hide IntakeInv, ShutdownInv, WorkInv, TasksInv;
      CensusTotal(s.workers);
      forall id
        ensures s.admitted[id] == Times(s.finished, id) + Times(s.failed, id) <= 1
      {
        assert IdInv(s, id);
        Liveness.NoHolders(s.workers, id);
      }
    }
  }

  // ----- What may happen from outside -----

  /**
   * The results above are about every environment: a signal can arrive at any time, a client can
   * connect whenever the acceptor waits, a connection can turn out to hold no request, a round can
   * fail whoever serves it, and any blocked thread can wake up for no reason.
   */
  lemma OutsideIsFree(c: Config, s: State, i: nat, fd: nat)
    ensures Enabled(c, s, Signal)
    ensures s.acceptor == Accepting ==> Enabled(c, s, Accept(fd))
    ensures i < |s.parsers| && s.parsers[i] == Busy(Connected(fd)) ==> Enabled(c, s, Reject(i))
    ensures i < |s.parsers| && s.parsers[i].Asleep? ==> Enabled(c, s, ParserSpurious(i))
    ensures i < |s.workers| && s.workers[i].Asleep? ==> Enabled(c, s, WorkerSpurious(i))
    ensures i < |s.workers| && s.workers[i].Busy? ==> Enabled(c, s, Fail(i))
  {
    hide MayWake, Served, Shaped, Admissible;
  }

  // ----- Admission -----

  lemma {:induction false} RunThen(c: Config, s: State, steps: seq<Step>, st: Step)
    requires IsRun(c, s, steps) && Enabled(c, After(c, s, steps), st)
    ensures IsRun(c, s, steps + [st]) && After(c, s, steps + [st]) == Next(c, After(c, s, steps), st)
    decreases |steps|
  {
    hide Enabled, Next;
    if steps == [] {
      assert steps + [st] == [st] && [st][1..] == [];
    } else {
      assert (steps + [st])[0] == steps[0] && (steps + [st])[1..] == steps[1..] + [st];
      RunThen(c, Next(c, s, steps[0]), steps[1..], st);
    }
  }

  /** A connection reaches the first parser of an idle server. */
  lemma IdleConnects(c: Config, s: State, fd: nat) returns (steps: seq<Step>, n: State)
    requires Inv(c, s) && Liveness.Idle(s)
    ensures IsRun(c, s, steps) && After(c, s, steps) == n
    ensures |n.parsers| > 0 && n.parsers[0] == Busy(Connected(fd))
    ensures n.queue == s.queue && n.workers == s.workers && n.admitted == s.admitted && n.nextId == s.nextId
  {
    AllAsleep(s.parsers);
    assert |s.parsers| > 0;
    hide Inv, Liveness.Idle, IsRun, After, Admissible, Served, Shaped, NextOfWorker;
    RunThenFirst(c, s, Accept(fd));
    var s1 := Next(c, s, Accept(fd));
    RunThen(c, s, [Accept(fd)], NotifyFd(0));
    var s2 := Next(c, s1, NotifyFd(0));
    RunThen(c, s, [Accept(fd)] + [NotifyFd(0)], TakeFd(0));
    n := Next(c, s2, TakeFd(0));
    steps := [Accept(fd)] + [NotifyFd(0)] + [TakeFd(0)];
  }

  lemma RunThenFirst(c: Config, s: State, st: Step)
    requires Enabled(c, s, st)
    ensures IsRun(c, s, [st]) && After(c, s, [st]) == Next(c, s, st)
  {
    hide Enabled, Next;
    assert [st][1..] == [];
  }

  lemma RunFirst(c: Config, s: State, st: Step, steps: seq<Step>)
    requires Enabled(c, s, st) && IsRun(c, Next(c, s, st), steps)
    ensures IsRun(c, s, [st] + steps) && After(c, s, [st] + steps) == After(c, Next(c, s, st), steps)
  {
    hide Enabled, Next;
    assert ([st] + steps)[0] == st && ([st] + steps)[1..] == steps;
  }

  lemma ReachableStep(c: Config, s: State, st: Step)
    requires Reachable(c, s) && Enabled(c, s, st)
    ensures Reachable(c, Next(c, s, st))
  {
    hide Init, Enabled, Next, IsRun, After;
    var start, steps :| Init(start) && IsRun(c, start, steps) && After(c, start, steps) == s;
    RunThen(c, start, steps, st);
  }

  /** From every reachable state a signal lets the server finish all its requests and end. */
  lemma StopsWhenAsked(c: Config, s: State) returns (steps: seq<Step>)
    requires Reachable(c, s) && c.Valid()
    ensures IsRun(c, s, [Signal] + steps)
    ensures forall k :: 0 <= k < |steps| ==> !steps[k].External() && !steps[k].Fail?
    ensures var end := After(c, s, [Signal] + steps);
            && end.main == Over
            && forall id :: s.admitted[id] > Times(s.failed, id) ==> Times(end.finished, id) == 1
  {
    SignalAsks(c, s);
    hide Reachable, IsRun, After, Enabled, Next, Times;
    ReachableStep(c, s, Signal);
    steps := EverythingCanFinish(c, Next(c, s, Signal));
    RunFirst(c, s, Signal, steps);
  }

  lemma SignalAsks(c: Config, s: State)
    ensures Enabled(c, s, Signal)
    ensures Next(c, s, Signal) == s.(shutdown := true)
  {
  }

  lemma AllAsleep<T>(pool: Pool<T>)
    requires CensusOf(pool).asleep == |pool|
    ensures forall i :: 0 <= i < |pool| ==> pool[i].Asleep?
  {
    hide Count;
    forall i | 0 <= i < |pool|
      ensures pool[i].Asleep?
    {
      CensusTotal(pool);
      CountPositive(pool, i);
    }
  }

  /**
   * An idle server admits whatever request the next client sends, a GET of any file or a PUT of any
   * body, and wakes a worker for it.
   */
  lemma IdleAdmits(c: Config, s: State, fd: nat, t: Task) returns (steps: seq<Step>)
    requires Inv(c, s) && Liveness.Idle(s) && t.job.id == s.nextId
    requires t.job.Fresh() && t.job.total == |t.body| && t.wire == []
    requires t.job.op.GET? ==> |t.body| < 0x8000_0000_0000_0000
    ensures IsRun(c, s, steps)
    ensures var end := After(c, s, steps);
            && end.queue.items == [t] && end.admitted == s.admitted + multiset{t.job.id}
            && |end.workers| > 0 && end.workers[0] == Ready
  {
    assert Admissible(t);
    hide Inv, IsRun, After, Admissible, Liveness.Idle, Enabled, Next;
    var a, n := IdleConnects(c, s, fd);
    IdleQueue(s);
    var m := ParseAndQueue(c, n, t);
    RunThen(c, s, a, Parse(0, t));
    RunThen(c, s, a + [Parse(0, t)], Enqueue(0));
    var e := FirstWorkerWakes(c, m);
    RunThen(c, s, a + [Parse(0, t)] + [Enqueue(0)], e);
    steps := a + [Parse(0, t)] + [Enqueue(0)] + [e];
  }

  lemma IdleQueue(s: State)
    requires ShutdownInv(s) && Liveness.Idle(s)
    ensures s.queue == QueueState([], false, 0) && |s.workers| > 0
    ensures forall i :: 0 <= i < |s.workers| ==> s.workers[i].Asleep?
  {
    AllAsleep(s.workers);
  }

  lemma ParseAndQueue(c: Config, s: State, t: Task) returns (n: State)
    requires |s.parsers| > 0 && s.parsers[0].Busy? && s.parsers[0].work.Connected?
    requires Admissible(t) && t.job.id == s.nextId && s.queue == QueueState([], false, 0)
    ensures Enabled(c, s, Parse(0, t)) && Enabled(c, Next(c, s, Parse(0, t)), Enqueue(0))
    ensures n == Next(c, Next(c, s, Parse(0, t)), Enqueue(0))
    ensures |n.parsers| > 0 && n.parsers[0] == Notifying
    ensures n.queue.items == [t] && n.admitted == s.admitted + multiset{t.job.id} && n.workers == s.workers
  {
    hide Admissible, MayWake, NextOfWorker, NextOfOther;
    n := Next(c, Next(c, s, Parse(0, t)), Enqueue(0));
  }

  lemma FirstWorkerWakes(c: Config, s: State) returns (e: Step)
    requires |s.parsers| > 0 && s.parsers[0] == Notifying && |s.workers| > 0 && s.workers[0].Asleep?
    ensures Enabled(c, s, e)
    ensures var n := Next(c, s, e);
            n.queue == s.queue && n.admitted == s.admitted && |n.workers| > 0 && n.workers[0] == Ready
  {
    hide NextOfWorker, NextOfOther;
    e := NotifyPush(0, 0);
  }
}
