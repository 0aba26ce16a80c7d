/** The server never gets stuck, always settles, and shuts down only with all work done. */
module Liveness {
  import opened Common
  import opened Rounds
  import opened Queues
  import opened Pools
  import opened Tasks
  import opened Protocol
  import opened Safety
  import opened Conservation

  // ----- What the invariants say about blocked and returned threads -----

  /**
   * No lost wakeup: while workers sleep, every queued request has a worker or a notification on
   * its way to it; so if nobody is awake and no notification is pending, the queue is empty and open.
   */
  lemma NoLostWakeup(c: Config, s: State)
    requires Inv(c, s) && CensusOf(s.workers).asleep > 0
    ensures |s.queue.items| <= CensusOf(s.workers).ready + CensusOf(s.workers).notifying
                               + CensusOf(s.parsers).notifying
    ensures CensusOf(s.workers).busy == CensusOf(s.workers).ready == CensusOf(s.workers).notifying == 0
            && CensusOf(s.parsers).notifying == 0 && s.main != QueueClosing
            ==> s.queue.items == [] && !s.queue.closed
  {
    hide CensusOf, IntakeInv, TasksInv, IdsInv;
  }

  lemma {:induction false} LengthIsSum(ts: seq<Task>, ids: multiset<nat>)
    requires forall id :: ids[id] == Times(ts, id)
    ensures |ids| == |ts|
  {
    if ts == [] {
      assert ids == multiset{};
    } else {
      var rest := ids - multiset{ts[0].job.id};
      assert ids[ts[0].job.id] > 0;
      assert ids == rest + multiset{ts[0].job.id};
      LengthIsSum(ts[1..], rest);
    }
  }

  /** A worker returns only when every admitted request is finished or failed, exactly once. */
  lemma ReturnedMeansDrained(c: Config, s: State)
    requires Inv(c, s) && CensusOf(s.workers).exited > 0
    ensures s.queue.items == [] && s.queue.closed && s.queue.inflight == 0
    ensures forall id :: s.admitted[id] == Times(s.finished, id) + Times(s.failed, id) <= 1
    ensures |s.admitted| == |s.finished| + |s.failed|
  {
    forall id
      ensures s.admitted[id] == Times(s.finished + s.failed, id) <= 1
      ensures s.admitted[id] == Times(s.finished, id) + Times(s.failed, id)
    {
      assert IdInv(s, id);
      NoHolders(s.workers, id);
      TimesAppend(s.finished, s.failed, id);
    }
    LengthIsSum(s.finished + s.failed, s.admitted);
  }

  lemma NoHolders(workers: Pool<Task>, id: nat)
    requires CensusOf(workers).busy == 0
    ensures Holders(workers, IdOfTask, id) == 0
  {
    forall i | 0 <= i < |workers|
      ensures !workers[i].Busy?
    {
      CountPositive(workers, i);
    }
    HoldersNone(workers, IdOfTask, id);
  }

  /** After shutdown every accepted connection was taken and nothing was refused or lost. */
  lemma OverMeansDone(c: Config, s: State)
    requires Inv(c, s) && s.main == Over
    ensures s.accepted == s.taken && s.refused == 0
    ensures |s.admitted| == |s.finished| + |s.failed|
    ensures forall id :: s.admitted[id] == Times(s.finished, id) + Times(s.failed, id) <= 1
    ensures forall i :: 0 <= i < |s.finished| ==> Complete(c, s.finished[i])
  {
    ReturnedMeansDrained(c, s);
    assert CensusOf(s.parsers).exited > 0;
    assert s.taken + s.fds == s.taken;
  }

  // ----- Some thread can always move -----

  /** Everything the clients asked for is done, and the server waits for more. */
  predicate Idle(s: State) {
    && s.acceptor == Accepting && s.fds == [] && s.main == JoiningAcceptor
    && s.queue == QueueState([], false, 0)
    && CensusOf(s.parsers).asleep == |s.parsers|
    && CensusOf(s.workers).asleep == |s.workers|
  }

  /** The steps of a pool's threads that are neither blocked nor returned. */
  lemma ParserCanStep(c: Config, s: State) returns (st: Step)
    requires CensusOf(s.parsers).ready + CensusOf(s.parsers).busy + CensusOf(s.parsers).notifying > 0
    ensures Enabled(c, s, st) && !st.External() && !st.Parse? && !st.Fail?
  {
    hide Served, Chosen;
    if CensusOf(s.parsers).ready > 0 {
      var p := FindThread(s.parsers, IsReady);
      st := if s.fds != [] then TakeFd(p) else if s.fdClosed then ParserReturn(p) else ParserWait(p);
    } else if CensusOf(s.parsers).busy > 0 {
      var p := FindThread(s.parsers, IsBusy);
      st := if s.parsers[p].work.Connected? then Reject(p) else Enqueue(p);
    } else {
      var p := FindThread(s.parsers, IsNotifying);
      var who := Sleeper(s.workers);
      st := NotifyPush(p, who);
    }
  }

  lemma Sleeper<T>(pool: Pool<T>) returns (who: nat)
    ensures MayWake(pool, who)
  {
    who := 0;
    if Count(pool, IsAsleep) > 0 {
      who := FindThread(pool, IsAsleep);
    }
  }

  lemma WorkerCanStep(c: Config, s: State) returns (st: Step)
    requires TasksInv(c, s)
    requires CensusOf(s.workers).ready + CensusOf(s.workers).busy + CensusOf(s.workers).notifying > 0
    ensures Enabled(c, s, st) && !st.External() && !st.Parse? && !st.Fail?
  {
    if CensusOf(s.workers).ready > 0 {
      var w := FindThread(s.workers, IsReady);
      st := if s.queue.items != [] then Take(w) else if s.queue.MayReturn() then WorkerReturn(w) else WorkerWait(w);
    } else if CensusOf(s.workers).busy > 0 {
      var w := FindThread(s.workers, IsBusy);
      assert Waiting(c, s.workers[w].work);
      st := BusyCanStep(c, s, w);
    } else {
      hide TasksInv;
      var w := FindThread(s.workers, IsNotifying);
      var who := Sleeper(s.workers);
      st := NotifyBack(w, who);
    }
  }

  /** A round either puts the request back or finishes it. */
  lemma BusyCanStep(c: Config, s: State, w: nat) returns (st: Step)
    requires WorkerIs(s, w, IsBusy) && Waiting(c, s.workers[w].work)
    ensures Enabled(c, s, st) && !st.External() && !st.Parse? && !st.Fail?
  {
    hide RunOf, StreamOf, RoundOf, SentBy;
    st := if Served(c, s.workers[w].work).job.Remaining() > 0 then PutBack(w) else Finish(w);
  }

  /**
   * No stuck state: unless the server is over, some thread can take a step on its own, or it
   * is idle with nothing left to do and no shutdown requested.
   */
  lemma Progress(c: Config, s: State) returns (st: Option<Step>)
    requires Inv(c, s)
    ensures st.Some? ==> Enabled(c, s, st.value) && !st.value.External() && !st.value.Parse? && !st.value.Fail?
    ensures st.None? ==> s.main == Over || (Idle(s) && !s.shutdown)
  {
    hide TasksInv, IdsInv, Served, Chosen, Admissible;
    var ps, ws := CensusOf(s.parsers), CensusOf(s.workers);
    CountTotal(s.parsers);
    CountTotal(s.workers);
    st := None;
    if s.acceptor == FdQueued {
      var who := Sleeper(s.parsers);
      st := Some(NotifyFd(who));
    } else if s.acceptor == FdsClosing {
      st := Some(BroadcastFds);
    } else if s.acceptor == Accepting && s.shutdown {
      st := Some(CloseFds);
    } else if ps.ready + ps.busy + ps.notifying > 0 {
      var next := ParserCanStep(c, s);
      st := Some(next);
    } else if ws.ready + ws.busy + ws.notifying > 0 {
      var next := WorkerCanStep(c, s);
      st := Some(next);
    } else if s.main == QueueClosing {
      st := Some(BroadcastQueue);
    } else if s.acceptor == Stopped && s.main != Over {
      var next := MainCanStep(c, s);
      st := Some(next);
    }
  }

  lemma ExitedThread<T>(pool: Pool<T>, i: nat)
    requires i < |pool| && CensusOf(pool).exited == |pool|
    ensures pool[i].Exited?
  {
    if !pool[i].Exited? {
      NotAllExited(pool, i);
    }
  }

  /** With all pool threads returned main can go on. */
  lemma MainCanStep(c: Config, s: State) returns (st: Step)
    requires IntakeInv(s) && ShutdownInv(s) && WorkInv(s)
    requires s.acceptor == Stopped && s.main != Over && s.main != QueueClosing
    requires CensusOf(s.parsers).ready == CensusOf(s.parsers).busy == CensusOf(s.parsers).notifying == 0
    requires CensusOf(s.workers).ready == CensusOf(s.workers).busy == CensusOf(s.workers).notifying == 0
    ensures Enabled(c, s, st) && !st.External() && !st.Parse? && !st.Fail?
  {
    CountTotal(s.parsers);
    CountTotal(s.workers);
    forall i | 0 <= i < |s.parsers|
      ensures s.parsers[i].Exited?
    {
      ExitedThread(s.parsers, i);
    }
    if s.main == JoiningWorkers {
      forall i | 0 <= i < |s.workers|
        ensures s.workers[i].Exited?
      {
        ExitedThread(s.workers, i);
      }
    }
    st := match s.main
      case JoiningAcceptor => JoinAcceptor
      case JoiningParsers => JoinParsers
      case _ => JoinWorkers;
  }
}
