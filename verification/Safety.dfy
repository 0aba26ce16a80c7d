/** What every step of the server keeps. */
module Safety {
  import opened Sums
  import opened Rounds
  import opened Pools
  import opened Tasks
  import opened Protocol

  /** Threads of the intake side: no wakeup is lost, and connections leave the queue in order. */
  predicate IntakeInv(s: State) {
    && (s.fdClosed <==> s.acceptor == FdsClosing || s.acceptor == Stopped)
    && s.accepted == s.taken + s.fds
    && Wakeful(CensusOf(s.parsers), |s.fds|, One(s.acceptor == FdQueued), s.fdClosed, s.acceptor == FdsClosing)
  }

  /** The order in which main takes the server down. */
  predicate ShutdownInv(s: State) {
    && |s.parsers| > 0 && |s.workers| > 0
    && (s.main != JoiningAcceptor ==> s.acceptor == Stopped)
    && (s.queue.closed <==> s.main == QueueClosing || s.main == JoiningWorkers || s.main == Over)
    && (s.queue.closed ==> CensusOf(s.parsers).exited == |s.parsers|)
    && (s.main == Over ==> CensusOf(s.workers).exited == |s.workers|)
    && s.refused == 0
  }

  /** Workers: the in-flight counter is exact, and no wakeup is lost. */
  predicate WorkInv(s: State) {
    var c := CensusOf(s.workers);
    && s.queue.inflight == c.busy
    && Wakeful(c, |s.queue.items|, CensusOf(s.parsers).notifying + c.notifying,
               s.queue.closed && s.queue.inflight == 0 && s.queue.items == [], s.main == QueueClosing)
  }

  lemma AllExited<T>(pool: Pool<T>)
    requires forall i :: 0 <= i < |pool| ==> pool[i].Exited?
    ensures CensusOf(pool).exited == |pool|
  {
    if pool != [] {
      AllExited(pool[1..]);
    }
  }

  lemma NotAllExited<T>(pool: Pool<T>, i: nat)
    requires i < |pool| && !pool[i].Exited?
    ensures CensusOf(pool).exited < |pool|
  {
    hide Count;
    CountPositive(pool, i);
    CountTotal(pool);
  }

  lemma {:induction false} AllReady<T>(pool: Pool<T>)
    requires forall i :: 0 <= i < |pool| ==> pool[i] == Ready
    ensures CensusOf(pool) == Census(|pool|, 0, 0, 0, 0)
  {
    if pool != [] {
      AllReady(pool[1..]);
    }
  }

  lemma InitInv(s: State)
    requires Init(s)
    ensures IntakeInv(s) && ShutdownInv(s) && WorkInv(s)
  {
    AllReady(s.parsers);
    AllReady(s.workers);
  }

  /** A parser step changes that parser, and otherwise at most wakes workers. */
  lemma FrameOfParser(c: Config, s: State, st: Step)
    requires Enabled(c, s, st) && st.Parser().Some?
    ensures var n, p := Next(c, s, st), st.Parser().value;
            && p < |s.parsers| && !s.parsers[p].Exited?
            && n.parsers == s.parsers[p := n.parsers[p]]
            && |n.workers| == |s.workers|
            && n.acceptor == s.acceptor && n.fdClosed == s.fdClosed && n.main == s.main
            && n.queue.closed == s.queue.closed && n.queue.inflight == s.queue.inflight
            && n.finished == s.finished && n.failed == s.failed
  {
    hide NextOfWorker, NextOfOther, Chosen, Served, Shaped, Admissible, MayWake;
  }

  /** A worker step changes that worker and the queue, and otherwise at most wakes workers. */
  lemma FrameOfWorker(c: Config, s: State, st: Step)
    requires Enabled(c, s, st) && st.Worker().Some?
    ensures var n, w := Next(c, s, st), st.Worker().value;
            && w < |s.workers| && !s.workers[w].Exited?
            && |n.workers| == |s.workers|
            && n == s.(workers := n.workers, queue := n.queue, finished := n.finished, failed := n.failed)
            && n.queue.closed == s.queue.closed
  {
    hide NextOfParser, NextOfOther, Chosen, Served, Shaped, Admissible, MayWake;
  }

  /** A worker that is busy after a step was busy with the same request, or has just taken one. */
  lemma BusyBefore(c: Config, s: State, st: Step, i: nat)
    requires Enabled(c, s, st)
    requires i < |Next(c, s, st).workers| && Next(c, s, st).workers[i].Busy?
    ensures i < |s.workers|
    ensures (s.workers[i].Busy? && s.workers[i] == Next(c, s, st).workers[i])
            || (st.Take? && Next(c, s, st).workers[i].work == s.queue.items[Chosen(c, s.queue.items)])
  {
    hide Served, Shaped, Chosen, MayWake, Admissible;
    if st.Parser().Some? {
      hide NextOfWorker, NextOfOther;
    } else if st.Worker().Some? {
      hide NextOfParser, NextOfOther;
    } else {
      hide NextOfParser, NextOfWorker;
    }
  }

  lemma IntakeStep(c: Config, s: State, st: Step)
    requires Enabled(c, s, st) && IntakeInv(s)
    ensures IntakeInv(Next(c, s, st))
  {
    hide CensusOf, Enabled, Next;
    if st.Parser().Some? {
      IntakeStepOfParser(c, s, st);
    } else if st.Worker().Some? {
      FrameOfWorker(c, s, st);
    } else {
      IntakeStepOfOther(c, s, st);
    }
  }

  lemma IntakeStepOfOther(c: Config, s: State, st: Step)
    requires Enabled(c, s, st) && IntakeInv(s) && st.Parser().None? && st.Worker().None?
    ensures IntakeInv(Next(c, s, st))
  {
    hide NextOfParser, NextOfWorker, CensusOf, MayWake;
    if st.NotifyFd? {
      CensusWakeOne(s.parsers, st.who);
    } else if st.BroadcastFds? {
      CensusWakeAll(s.parsers);
    }
  }

  lemma IntakeStepOfParser(c: Config, s: State, st: Step)
    requires Enabled(c, s, st) && IntakeInv(s) && st.Parser().Some?
    ensures IntakeInv(Next(c, s, st))
  {
    hide NextOfWorker, NextOfOther, CensusOf, Served, Shaped, Admissible, MayWake;
    var n, p := Next(c, s, st), st.Parser().value;
    FrameOfParser(c, s, st);
    CensusUpdate(s.parsers, p, n.parsers[p]);
    if st.TakeFd? {
      assert s.taken + s.fds == n.taken + n.fds;
    }
  }

  lemma ShutdownStep(c: Config, s: State, st: Step)
    requires Enabled(c, s, st) && ShutdownInv(s)
    ensures ShutdownInv(Next(c, s, st))
  {
    hide CensusOf, Enabled, Next;
    if st.Parser().Some? {
      ShutdownStepOfParser(c, s, st);
    } else if st.Worker().Some? {
      FrameOfWorker(c, s, st);
      NotAllExited(s.workers, st.Worker().value);
    } else {
      ShutdownStepOfOther(c, s, st);
    }
  }

  lemma ShutdownStepOfParser(c: Config, s: State, st: Step)
    requires Enabled(c, s, st) && ShutdownInv(s) && st.Parser().Some?
    ensures ShutdownInv(Next(c, s, st))
  {
    hide NextOfWorker, NextOfOther, CensusOf, MayWake, WakeOne, Admissible;
    FrameOfParser(c, s, st);
    NotAllExited(s.parsers, st.Parser().value);
  }

  lemma ShutdownStepOfOther(c: Config, s: State, st: Step)
    requires Enabled(c, s, st) && ShutdownInv(s) && st.Parser().None? && st.Worker().None?
    ensures ShutdownInv(Next(c, s, st))
  {
    hide NextOfParser, NextOfWorker, CensusOf, MayWake;
    if st.JoinParsers? {
      AllExited(s.parsers);
    } else if st.JoinWorkers? {
      AllExited(s.workers);
    }
  }

  lemma WorkStep(c: Config, s: State, st: Step)
    requires Enabled(c, s, st) && WorkInv(s) && ShutdownInv(s)
    ensures WorkInv(Next(c, s, st))
  {
    if st.Parser().Some? {
      WorkStepOfParser(c, s, st);
    } else if st.Worker().Some? {
      WorkStepOfWorker(c, s, st);
    } else {
      WorkStepOfOther(c, s, st);
    }
  }

  lemma WorkStepOfOther(c: Config, s: State, st: Step)
    requires Enabled(c, s, st) && WorkInv(s) && ShutdownInv(s) && st.Parser().None? && st.Worker().None?
    ensures WorkInv(Next(c, s, st))
  {
    hide NextOfParser, NextOfWorker, CensusOf, MayWake;
    if st.NotifyFd? {
      CensusWakeOne(s.parsers, st.who);
    } else if st.BroadcastFds? {
      CensusWakeAll(s.parsers);
    } else if st.BroadcastQueue? {
      CensusWakeAll(s.workers);
    }
  }

  lemma WorkStepOfParser(c: Config, s: State, st: Step)
    requires Enabled(c, s, st) && WorkInv(s) && ShutdownInv(s) && st.Parser().Some?
    ensures WorkInv(Next(c, s, st))
  {
    hide NextOfWorker, NextOfOther, CensusOf, Served, Shaped, Admissible, MayWake;
    var n, p := Next(c, s, st), st.Parser().value;
    FrameOfParser(c, s, st);
    NotAllExited(s.parsers, p);
    CensusUpdate(s.parsers, p, n.parsers[p]);
    if st.NotifyPush? {
      CensusWakeOne(s.workers, st.who);
    }
  }

  lemma WorkStepOfWorker(c: Config, s: State, st: Step)
    requires Enabled(c, s, st) && WorkInv(s) && st.Worker().Some?
    ensures WorkInv(Next(c, s, st))
  {
    hide Enabled, Next, WorkInv;
    if st.NotifyBack? {
      WorkStepOfNotify(c, s, st);
    } else if st.Finish? || st.Fail? {
      WorkStepOfEnd(c, s, st);
    } else if st.Take? || st.PutBack? {
      WorkStepOfMove(c, s, st);
    } else {
      WorkStepOfWait(c, s, st);
    }
  }

  /** A request goes from the queue to the worker, or back. */
  lemma WorkStepOfMove(c: Config, s: State, st: Step)
    requires Enabled(c, s, st) && WorkInv(s) && (st.Take? || st.PutBack?)
    ensures WorkInv(Next(c, s, st))
  {
    hide NextOfParser, NextOfOther, CensusOf, Chosen, Served, Shaped, MayWake, WakeOne, WakeAll;
    CensusUpdate(s.workers, st.w, Next(c, s, st).workers[st.w]);
  }

  lemma WorkStepOfWait(c: Config, s: State, st: Step)
    requires Enabled(c, s, st) && WorkInv(s) && (st.WorkerWait? || st.WorkerReturn? || st.WorkerSpurious?)
    ensures WorkInv(Next(c, s, st))
  {
    hide NextOfParser, NextOfOther, CensusOf, Chosen, Served, Shaped, MayWake, WakeOne, WakeAll;
    CensusUpdate(s.workers, st.w, Next(c, s, st).workers[st.w]);
  }

  lemma WorkStepOfNotify(c: Config, s: State, st: Step)
    requires Enabled(c, s, st) && WorkInv(s) && st.NotifyBack?
    ensures WorkInv(Next(c, s, st))
  {
    hide NextOfParser, NextOfOther, CensusOf, Chosen, Served, Shaped, MayWake, WakeOne;
    CensusWakeOne(s.workers, st.who);
    CensusUpdate(WakeOne(s.workers, st.who), st.w, Ready);
  }

  /** A round ends for good: the counter goes down and everybody wakes up. */
  lemma WorkStepOfEnd(c: Config, s: State, st: Step)
    requires Enabled(c, s, st) && WorkInv(s) && (st.Finish? || st.Fail?)
    ensures WorkInv(Next(c, s, st))
  {
    hide NextOfParser, NextOfOther, CensusOf, Chosen, Served, Shaped, MayWake, WakeAll;
    CensusWakeAll(s.workers);
    CensusUpdate(WakeAll(s.workers), st.w, Ready);
  }
}
