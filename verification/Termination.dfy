/** Left alone by the outside, the server settles: every step of its own lowers a measure. */
module Termination {
  import opened Common
  import opened Sums
  import opened Rounds
  import opened Pools
  import opened Tasks
  import opened Protocol
  import opened Safety
  import opened Conservation
  import opened Liveness

  function CostOf<T>(t: Thread<T>, cost: T -> nat): nat {
    if t.Busy? then cost(t.work) else 0
  }

  function Loaded<T>(cost: T -> nat): Thread<T> -> nat {
    (t: Thread<T>) => CostOf(t, cost)
  }

  /** The cost of what the threads of a pool are working on. */
  function SumBusy<T>(pool: Pool<T>, cost: T -> nat): nat {
    Sum(pool, Loaded(cost))
  }

  lemma SumBusyUpdate<T>(pool: Pool<T>, i: nat, t: Thread<T>, cost: T -> nat)
    requires i < |pool|
    ensures SumBusy(pool[i := t], cost) + CostOf(pool[i], cost) == SumBusy(pool, cost) + CostOf(t, cost)
  {
    SumUpdate(pool, i, t, Loaded(cost));
  }

  lemma SumBusyWakeOne<T>(pool: Pool<T>, who: nat, cost: T -> nat)
    ensures SumBusy(WakeOne(pool, who), cost) == SumBusy(pool, cost)
  {
    SumSame(pool, WakeOne(pool, who), Loaded(cost));
  }

  lemma SumBusyWakeAll<T>(pool: Pool<T>, cost: T -> nat)
    ensures SumBusy(WakeAll(pool), cost) == SumBusy(pool, cost)
  {
    SumSame(pool, WakeAll(pool), Loaded(cost));
  }

  /** Work left in a request: a round costs more than waking the whole worker pool. */
  function TaskCost(c: Config, workers: nat, t: Task): nat {
    (workers + 6) * (Rank(c, t) + 1)
  }

  /** An upper bound on what serving a request can still cause, lower after every round. */
  ghost predicate GoodCost(c: Config, workers: nat, cost: Task -> nat) {
    && (forall t :: cost(t) >= workers + 6)
    && (forall t :: Waiting(c, t) && Served(c, t).job.Remaining() > 0 ==>
          cost(Served(c, t)) + workers + 6 <= cost(t))
  }

  lemma TaskCostIsGood(c: Config, workers: nat, cost: Task -> nat)
    requires c.Valid()
    requires forall t :: cost(t) == TaskCost(c, workers, t)
    ensures GoodCost(c, workers, cost)
  {
    hide Rank, RunOf, StreamOf, RoundOf, SentBy, TaskCost;
    forall t
      ensures cost(t) >= workers + 6
    {
      CostIsPositive(c, workers, t);
    }
    forall t | Waiting(c, t) && Served(c, t).job.Remaining() > 0
      ensures cost(Served(c, t)) + workers + 6 <= cost(t)
    {
      OneRoundCheaper(c, workers, t);
    }
  }

  lemma CostIsPositive(c: Config, workers: nat, t: Task)
    ensures TaskCost(c, workers, t) >= workers + 6
  {
    MulMonotone(1, Rank(c, t) + 1, workers + 6);
  }

  lemma OneRoundCheaper(c: Config, workers: nat, t: Task)
    requires c.Valid() && Waiting(c, t) && Served(c, t).job.Remaining() > 0
    ensures TaskCost(c, workers, Served(c, t)) + workers + 6 <= TaskCost(c, workers, t)
  {
    hide Rank, RunOf, StreamOf, RoundOf, SentBy;
    RankDecreases(c, t);
    var after, before := Rank(c, Served(c, t)), Rank(c, t);
    MulMonotone(after + 2, before + 1, workers + 6);
    MulMonotone(after + 1, after + 2, workers + 6);
  }

  function IsConnected(x: Intake): nat {
    One(x.Connected?)
  }

  /** Connections whose request has not been queued or rejected yet. */
  function Unread(s: State): nat {
    |s.fds| + CensusOf(s.parsers).busy
  }

  function AcceptorCost(s: State): nat {
    match s.acceptor
    case FdQueued => |s.parsers| + 4
    case Accepting => |s.parsers| + 2
    case FdsClosing => |s.parsers| + 1
    case Stopped => 0
  }

  function MainCost(s: State): nat {
    match s.main
    case JoiningAcceptor => |s.workers| + 4
    case JoiningParsers => |s.workers| + 3
    case QueueClosing => |s.workers| + 2
    case JoiningWorkers => 1
    case Over => 0
  }

  function PlaceCost(c: Census): nat {
    c.asleep + 2 * c.ready + 3 * c.busy + 4 * c.notifying
  }

  function TagCost(t: Tag): nat {
    match t
    case IsExited => 0
    case IsAsleep => 1
    case IsReady => 2
    case IsBusy => 3
    case IsNotifying => 4
  }

  /** Compared after `Unread`: what is left to do for requests already read, and for the threads. */
  function Pending(s: State, cost: Task -> nat): nat {
    AcceptorCost(s) + MainCost(s) + 3 * |s.fds|
    + PlaceCost(CensusOf(s.parsers)) + SumBusy(s.parsers, IsConnected)
    + PlaceCost(CensusOf(s.workers)) + SumBusy(s.workers, cost)
    + Sum(s.queue.items, cost) + 2 * |s.queue.items|
  }

  predicate Lower(s: State, n: State, cost: Task -> nat) {
    Unread(n) < Unread(s) || (Unread(n) == Unread(s) && Pending(n, cost) < Pending(s, cost))
  }

  // How the measure changes when one thread moves or threads are woken.

  lemma PlaceMoves<T>(pool: Pool<T>, i: nat, t: Thread<T>)
    requires i < |pool|
    ensures PlaceCost(CensusOf(pool[i := t])) + TagCost(TagOf(pool[i])) == PlaceCost(CensusOf(pool)) + TagCost(TagOf(t))
  {
    hide CensusOf;
    CensusUpdate(pool, i, t);
  }

  lemma UnreadMoves(s: State, n: State, p: nat, t: Thread<Intake>)
    requires p < |s.parsers| && n.parsers == s.parsers[p := t]
    ensures Unread(n) + |s.fds| + One(s.parsers[p].Busy?) == Unread(s) + |n.fds| + One(t.Busy?)
  {
    hide CensusOf;
    CensusUpdate(s.parsers, p, t);
  }

  lemma SameStages(s: State, n: State)
    requires s.acceptor == n.acceptor && s.main == n.main
    requires |s.parsers| == |n.parsers| && |s.workers| == |n.workers|
    ensures AcceptorCost(s) == AcceptorCost(n) && MainCost(s) == MainCost(n)
  {
  }

  lemma ParserMoves(s: State, n: State, p: nat, t: Thread<Intake>, cost: Task -> nat)
    requires p < |s.parsers|
    requires n == s.(parsers := s.parsers[p := t], fds := n.fds, taken := n.taken, nextId := n.nextId)
    ensures Pending(n, cost) + TagCost(TagOf(s.parsers[p])) + CostOf(s.parsers[p], IsConnected) + 3 * |s.fds|
            == Pending(s, cost) + TagCost(TagOf(t)) + CostOf(t, IsConnected) + 3 * |n.fds|
  {
    hide CensusOf, SumBusy, Sum, CostOf, PlaceCost, TagCost, AcceptorCost, MainCost;
    SameStages(s, n);
    PlaceMoves(s.parsers, p, t);
    SumBusyUpdate(s.parsers, p, t, IsConnected);
  }

  lemma WorkerMoves(s: State, n: State, w: nat, t: Thread<Task>, cost: Task -> nat)
    requires w < |s.workers|
    requires n == s.(workers := s.workers[w := t], queue := n.queue, finished := n.finished, failed := n.failed)
    ensures Unread(n) == Unread(s)
    ensures Pending(n, cost) + TagCost(TagOf(s.workers[w])) + CostOf(s.workers[w], cost)
            + Sum(s.queue.items, cost) + 2 * |s.queue.items|
            == Pending(s, cost) + TagCost(TagOf(t)) + CostOf(t, cost)
               + Sum(n.queue.items, cost) + 2 * |n.queue.items|
  {
    hide CensusOf, SumBusy, Sum, CostOf, PlaceCost, TagCost, AcceptorCost, MainCost;
    SameStages(s, n);
    PlaceMoves(s.workers, w, t);
    SumBusyUpdate(s.workers, w, t, cost);
  }

  /** Waking threads raises the measure by at most their number. */
  lemma WakeWorkerRaises(s: State, who: nat, cost: Task -> nat)
    requires MayWake(s.workers, who)
    ensures Pending(s.(workers := WakeOne(s.workers, who)), cost) <= Pending(s, cost) + 1
  {
    hide CensusOf, SumBusy, Sum, MayWake, WakeOne, AcceptorCost, MainCost;
    SameStages(s, s.(workers := WakeOne(s.workers, who)));
    CensusWakeOne(s.workers, who);
    SumBusyWakeOne(s.workers, who, cost);
  }

  lemma WakeParserRaises(s: State, who: nat, cost: Task -> nat)
    requires MayWake(s.parsers, who)
    ensures var n := s.(parsers := WakeOne(s.parsers, who));
            Pending(n, cost) <= Pending(s, cost) + 1 && Unread(n) == Unread(s)
  {
    hide CensusOf, SumBusy, Sum, MayWake, WakeOne, AcceptorCost, MainCost;
    SameStages(s, s.(parsers := WakeOne(s.parsers, who)));
    CensusWakeOne(s.parsers, who);
    SumBusyWakeOne(s.parsers, who, IsConnected);
  }

  lemma WakeAllRaises(s: State, cost: Task -> nat)
    ensures Pending(s.(workers := WakeAll(s.workers)), cost) <= Pending(s, cost) + |s.workers|
    ensures Pending(s.(parsers := WakeAll(s.parsers)), cost) <= Pending(s, cost) + |s.parsers|
    ensures Unread(s.(parsers := WakeAll(s.parsers))) == Unread(s)
  {
    hide CensusOf, SumBusy, Sum, WakeAll;
    CensusTotal(s.workers);
    CensusWakeAll(s.workers);
    SumBusyWakeAll(s.workers, cost);
    CensusTotal(s.parsers);
    CensusWakeAll(s.parsers);
    SumBusyWakeAll(s.parsers, IsConnected);
  }

  lemma ParserLowers(c: Config, s: State, st: Step, cost: Task -> nat)
    requires Enabled(c, s, st) && !st.External() && st.Parser().Some?
    ensures Lower(s, Next(c, s, st), cost)
  {
    hide NextOfWorker, NextOfOther, Unread, Pending, Served, Shaped, Admissible, MayWake;
    var n, p := Next(c, s, st), st.Parser().value;
    if st.Reject? || st.Enqueue? {
      UnreadMoves(s, n, p, n.parsers[p]);
    } else {
      var mid := if st.NotifyPush? then s.(workers := WakeOne(s.workers, st.who)) else s;
      if st.NotifyPush? {
        WakeWorkerRaises(s, st.who, cost);
      }
      UnreadMoves(s, n, p, n.parsers[p]);
      ParserMoves(mid, n, p, n.parsers[p], cost);
    }
  }

  lemma WorkerLowers(c: Config, s: State, st: Step, cost: Task -> nat)
    requires Enabled(c, s, st) && !st.External() && st.Worker().Some?
    requires TasksInv(c, s) && GoodCost(c, |s.workers|, cost)
    ensures Lower(s, Next(c, s, st), cost)
  {
    hide Enabled, Next, Lower, TasksInv, GoodCost;
    if st.Finish? || st.Fail? {
      FinishLowers(c, s, st, cost);
    } else if st.PutBack? {
      PutBackLowers(c, s, st, cost);
    } else if st.NotifyBack? {
      NotifyBackLowers(c, s, st, cost);
    } else if st.Take? {
      TakeLowers(c, s, st, cost);
    } else {
      WaitLowers(c, s, st, cost);
    }
  }

  lemma TakeLowers(c: Config, s: State, st: Step, cost: Task -> nat)
    requires Enabled(c, s, st) && st.Take?
    ensures Lower(s, Next(c, s, st), cost)
  {
    hide NextOfParser, NextOfOther, Unread, Pending, Chosen, Sum;
    var n := Next(c, s, st);
    SumCut(s.queue.items, Chosen(c, s.queue.items), cost);
    WorkerMoves(s, n, st.w, n.workers[st.w], cost);
  }

  lemma WaitLowers(c: Config, s: State, st: Step, cost: Task -> nat)
    requires Enabled(c, s, st) && (st.WorkerWait? || st.WorkerReturn?)
    ensures Lower(s, Next(c, s, st), cost)
  {
    hide NextOfParser, NextOfOther, Unread, Pending, Sum;
    var n := Next(c, s, st);
    WorkerMoves(s, n, st.w, n.workers[st.w], cost);
  }

  lemma NotifyBackLowers(c: Config, s: State, st: Step, cost: Task -> nat)
    requires Enabled(c, s, st) && st.NotifyBack?
    ensures Lower(s, Next(c, s, st), cost)
  {
    hide NextOfParser, NextOfOther, Unread, Pending, MayWake, Sum;
    var mid := s.(workers := WakeOne(s.workers, st.who));
    WakeWorkerRaises(s, st.who, cost);
    UnreadOfParsers(s, mid);
    WorkerMoves(mid, Next(c, s, st), st.w, Ready, cost);
  }

  /** Putting a request back pays for the notification that follows. */
  lemma PutBackLowers(c: Config, s: State, st: Step, cost: Task -> nat)
    requires Enabled(c, s, st) && st.PutBack?
    requires TasksInv(c, s) && GoodCost(c, |s.workers|, cost)
    ensures Lower(s, Next(c, s, st), cost)
  {
    hide NextOfParser, NextOfOther, Unread, Pending, Sum, Served, Shaped, Waiting, Complete;
    var t := s.workers[st.w].work;
    assert Waiting(c, t);
    WorkerMoves(s, Next(c, s, st), st.w, Notifying, cost);
    SumPush(s.queue.items, Served(c, t), cost);
  }

  /** Completing a request pays for waking every sleeping worker. */
  lemma FinishLowers(c: Config, s: State, st: Step, cost: Task -> nat)
    requires Enabled(c, s, st) && (st.Finish? || st.Fail?)
    requires GoodCost(c, |s.workers|, cost)
    ensures Lower(s, Next(c, s, st), cost)
  {
    hide NextOfParser, NextOfOther, Unread, Pending, Sum, Served, Shaped, Waiting;
    var mid := s.(workers := WakeAll(s.workers));
    CostOfAll(c, |s.workers|, cost, s.workers[st.w].work);
    hide GoodCost, WakeAll;
    WakeAllRaises(s, cost);
    UnreadOfParsers(s, mid);
    WorkerMoves(mid, Next(c, s, st), st.w, Ready, cost);
  }

  lemma CostOfAll(c: Config, workers: nat, cost: Task -> nat, t: Task)
    requires GoodCost(c, workers, cost)
    ensures cost(t) >= workers + 6
  {
    hide Waiting, Served;
  }

  lemma UnreadOfParsers(s: State, n: State)
    requires s.parsers == n.parsers && s.fds == n.fds
    ensures Unread(s) == Unread(n)
  {
  }

  lemma OtherLowers(c: Config, s: State, st: Step, cost: Task -> nat)
    requires Enabled(c, s, st) && !st.External() && st.Parser().None? && st.Worker().None?
    ensures Lower(s, Next(c, s, st), cost)
  {
    if st.NotifyFd? || st.BroadcastFds? || st.BroadcastQueue? {
      WakeLowers(c, s, st, cost);
    } else {
      hide NextOfParser, NextOfWorker, Lower;
      StagesLower(s, Next(c, s, st), cost);
    }
  }

  /** The acceptor or main goes on, and nothing else changes. */
  lemma StagesLower(s: State, n: State, cost: Task -> nat)
    requires n.fds == s.fds && n.parsers == s.parsers && n.workers == s.workers && n.queue.items == s.queue.items
    requires AcceptorCost(n) + MainCost(n) < AcceptorCost(s) + MainCost(s)
    ensures Lower(s, n, cost)
  {
    hide CensusOf, SumBusy, Sum, PlaceCost, AcceptorCost, MainCost;
  }

  lemma WakeLowers(c: Config, s: State, st: Step, cost: Task -> nat)
    requires Enabled(c, s, st) && (st.NotifyFd? || st.BroadcastFds? || st.BroadcastQueue?)
    ensures Lower(s, Next(c, s, st), cost)
  {
    hide NextOfParser, NextOfWorker, CensusOf, SumBusy, Sum, MayWake, WakeOne, WakeAll, PlaceCost;
    if st.NotifyFd? {
      WakeParserRaises(s, st.who, cost);
    } else {
      WakeAllRaises(s, cost);
    }
  }

  /** Every step the server takes on its own lowers `(Unread, Pending)`. */
  lemma OwnStepsLower(c: Config, s: State, st: Step, cost: Task -> nat)
    requires Enabled(c, s, st) && !st.External()
    requires TasksInv(c, s) && GoodCost(c, |s.workers|, cost)
    ensures Lower(s, Next(c, s, st), cost)
  {
    hide Enabled, Next, Lower, TasksInv, GoodCost;
    if st.Parser().Some? {
      ParserLowers(c, s, st, cost);
    } else if st.Worker().Some? {
      WorkerLowers(c, s, st, cost);
    } else {
      OtherLowers(c, s, st, cost);
    }
  }

  /** The pool sizes never change. */
  lemma PoolsKeepSize(c: Config, s: State, st: Step)
    requires Enabled(c, s, st)
    ensures |Next(c, s, st).workers| == |s.workers|
  {
    hide NextOfParser, NextOfWorker;
    if st.Parser().Some? {
      FrameOfParser(c, s, st);
    } else if st.Worker().Some? {
      FrameOfWorker(c, s, st);
    }
  }

  /** An endless run: a step and a resulting state for every point in time. */
  ghost predicate IsEndless(c: Config, states: nat -> State, steps: nat -> Step) {
    && Inv(c, states(0))
    && (forall i: nat :: Enabled(c, states(i), steps(i)))
    && (forall i: nat :: states(i + 1) == Next(c, states(i), steps(i)))
  }

  lemma {:induction false} EndlessKeeps(c: Config, states: nat -> State, steps: nat -> Step, i: nat)
    requires IsEndless(c, states, steps)
    ensures Inv(c, states(i)) && |states(i).workers| == |states(0).workers|
  {
    hide Inv, Enabled, Next;
    if i > 0 {
      EndlessKeeps(c, states, steps, i - 1);
      assert states((i - 1) + 1) == Next(c, states(i - 1), steps(i - 1));
      StepKeeps(c, states(i - 1), steps(i - 1));
      PoolsKeepSize(c, states(i - 1), steps(i - 1));
    }
  }

  /**
   * Termination: no run goes on for ever without something happening outside, a new connection,
   * a signal or a spurious wakeup, again and again.
   */
  lemma SettlesUnlessDisturbed(c: Config, states: nat -> State, steps: nat -> Step, from: nat)
    requires c.Valid() && IsEndless(c, states, steps)
    ensures exists i: nat :: i >= from && steps(i).External()
  {
    hide Inv, Enabled, Next, TaskCost, GoodCost;
    var n := |states(0).workers|;
    var cost := (t: Task) => TaskCost(c, n, t);
    TaskCostIsGood(c, n, cost);
    var _ := NextDisturbance(c, states, steps, from, cost);
  }

  lemma {:induction false} NextDisturbance(c: Config, states: nat -> State, steps: nat -> Step, from: nat,
                                           cost: Task -> nat)
    returns (i: nat)
    requires IsEndless(c, states, steps)
    requires GoodCost(c, |states(0).workers|, cost)
    ensures i >= from && steps(i).External()
    decreases Unread(states(from)), Pending(states(from), cost)
  {
    hide Enabled, Next, GoodCost, Unread, Pending, IntakeInv, ShutdownInv, WorkInv, TasksInv, IdInv;
    i := from;
    if !steps(from).External() {
      EndlessKeeps(c, states, steps, from);
      OwnStepsLower(c, states(from), steps(from), cost);
      i := NextDisturbance(c, states, steps, from + 1, cost);
    }
  }

  /** From every reachable state the server can finish on its own: to the end, or to idleness. */
  lemma {:induction false} CanSettle(c: Config, s: State, cost: Task -> nat) returns (steps: seq<Step>)
    requires Inv(c, s) && c.Valid() && GoodCost(c, |s.workers|, cost)
    ensures IsRun(c, s, steps)
    ensures forall i :: 0 <= i < |steps| ==> !steps[i].External() && !steps[i].Parse? && !steps[i].Fail?
    ensures var end := After(c, s, steps); end.main == Over || (Idle(end) && !end.shutdown)
    decreases Unread(s), Pending(s, cost)
  {
    hide Enabled, Next, GoodCost, Unread, Pending, IntakeInv, ShutdownInv, WorkInv, TasksInv, IdInv, Idle;
    var st := Progress(c, s);
    steps := [];
    if st.Some? {
      StepKeeps(c, s, st.value);
      PoolsKeepSize(c, s, st.value);
      OwnStepsLower(c, s, st.value, cost);
      var rest := CanSettle(c, Next(c, s, st.value), cost);
      steps := [st.value] + rest;
      assert steps[1..] == rest;
    }
  }
}
