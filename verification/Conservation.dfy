/** No request is lost, duplicated or served by two workers, and each is always on track. */
module Conservation {
  import opened Common
  import opened Sums
  import opened Rounds
  import opened Pools
  import opened Tasks
  import opened Protocol
  import opened Safety

  function IdOfTask(t: Task): Option<nat> {
    Some(t.job.id)
  }

  function IdOfIntake(x: Intake): Option<nat> {
    match x
    case Connected(_) => None
    case Parsed(t) => Some(t.job.id)
  }

  function TaskWithId(id: nat): Task -> nat {
    (t: Task) => One(t.job.id == id)
  }

  /** How often a request id occurs in a list of requests. */
  function Times(ts: seq<Task>, id: nat): nat {
    Sum(ts, TaskWithId(id))
  }

  predicate Holds<T>(t: Thread<T>, key: T -> Option<nat>, id: nat) {
    t.Busy? && key(t.work) == Some(id)
  }

  function Holding<T>(key: T -> Option<nat>, id: nat): Thread<T> -> nat {
    (t: Thread<T>) => One(Holds(t, key, id))
  }

  /** How many threads of a pool hold the request with the given id. */
  function Holders<T>(pool: Pool<T>, key: T -> Option<nat>, id: nat): nat {
    Sum(pool, Holding(key, id))
  }

  lemma TimesAppend(a: seq<Task>, b: seq<Task>, id: nat)
    ensures Times(a + b, id) == Times(a, id) + Times(b, id)
  {
    SumAppend(a, b, TaskWithId(id));
  }

  lemma TimesPush(ts: seq<Task>, t: Task, id: nat)
    ensures Times(ts + [t], id) == Times(ts, id) + One(t.job.id == id)
  {
    SumPush(ts, t, TaskWithId(id));
  }

  lemma TimesCut(ts: seq<Task>, i: nat, id: nat)
    requires i < |ts|
    ensures Times(ts[..i] + ts[i + 1..], id) + One(ts[i].job.id == id) == Times(ts, id)
  {
    SumCut(ts, i, TaskWithId(id));
  }

  lemma HoldersUpdate<T>(pool: Pool<T>, i: nat, t: Thread<T>, key: T -> Option<nat>, id: nat)
    requires i < |pool|
    ensures Holders(pool[i := t], key, id) + One(Holds(pool[i], key, id))
            == Holders(pool, key, id) + One(Holds(t, key, id))
  {
    SumUpdate(pool, i, t, Holding(key, id));
  }

  lemma HoldersWakeOne<T>(pool: Pool<T>, who: nat, key: T -> Option<nat>, id: nat)
    ensures Holders(WakeOne(pool, who), key, id) == Holders(pool, key, id)
  {
    SumSame(pool, WakeOne(pool, who), Holding(key, id));
  }

  lemma HoldersWakeAll<T>(pool: Pool<T>, key: T -> Option<nat>, id: nat)
    ensures Holders(WakeAll(pool), key, id) == Holders(pool, key, id)
  {
    SumSame(pool, WakeAll(pool), Holding(key, id));
  }

  lemma HoldersNone<T>(pool: Pool<T>, key: T -> Option<nat>, id: nat)
    requires forall i :: 0 <= i < |pool| ==> !pool[i].Busy?
    ensures Holders(pool, key, id) == 0
  {
    SumZero(pool, Holding(key, id));
  }

  /** How often an id was given out: to requests still in a parser, and to admitted ones. */
  function Issued(s: State, id: nat): nat {
    s.admitted[id] + Holders(s.parsers, IdOfIntake, id)
  }

  /** admitted = queued + in service + finished + failed, for each id; ids are issued at most once. */
  predicate IdInv(s: State, id: nat) {
    && s.admitted[id] == Times(s.queue.items, id) + Holders(s.workers, IdOfTask, id)
                         + Times(s.finished, id) + Times(s.failed, id)
    && Issued(s, id) <= 1
    && (Issued(s, id) > 0 ==> id < s.nextId)
  }

  ghost predicate IdsInv(s: State) {
    forall id :: IdInv(s, id)
  }

  /** Every request is where its rounds have brought it, whichever workers ran them. */
  predicate TasksInv(c: Config, s: State) {
    && (forall i :: 0 <= i < |s.queue.items| ==> Waiting(c, s.queue.items[i]))
    && (forall i :: 0 <= i < |s.workers| && s.workers[i].Busy? ==> Waiting(c, s.workers[i].work))
    && (forall i :: 0 <= i < |s.parsers| && s.parsers[i].Busy? && s.parsers[i].work.Parsed? ==>
          Admissible(s.parsers[i].work.task))
    && (forall i :: 0 <= i < |s.finished| ==> Complete(c, s.finished[i]))
  }

  lemma IdStepOfParser(c: Config, s: State, st: Step, id: nat)
    requires Enabled(c, s, st) && IdInv(s, id) && ShutdownInv(s) && st.Parser().Some?
    ensures IdInv(Next(c, s, st), id)
  {
    hide NextOfWorker, NextOfOther, Times, Holders, CensusOf, Chosen, Served, Shaped, Admissible, MayWake;
    var n, p := Next(c, s, st), st.Parser().value;
    FrameOfParser(c, s, st);
    NotAllExited(s.parsers, p);
    HoldersUpdate(s.parsers, p, n.parsers[p], IdOfIntake, id);
    if st.NotifyPush? {
      HoldersWakeOne(s.workers, st.who, IdOfTask, id);
    } else if st.Enqueue? {
      TimesPush(s.queue.items, s.parsers[p].work.task, id);
    }
  }

  lemma IdStepOfWorker(c: Config, s: State, st: Step, id: nat)
    requires Enabled(c, s, st) && IdInv(s, id) && TasksInv(c, s) && st.Worker().Some?
    ensures IdInv(Next(c, s, st), id)
  {
    hide NextOfParser, NextOfOther, Times, Holders, Chosen, Served, Shaped, MayWake, Waiting, Complete;
    var n, w := Next(c, s, st), st.Worker().value;
    FrameOfWorker(c, s, st);
    if st.NotifyBack? {
      HoldersWakeOne(s.workers, st.who, IdOfTask, id);
      HoldersUpdate(WakeOne(s.workers, st.who), w, Ready, IdOfTask, id);
    } else if st.Finish? || st.Fail? {
      var x := s.workers[w].work;
      HoldersWakeAll(s.workers, IdOfTask, id);
      HoldersUpdate(WakeAll(s.workers), w, Ready, IdOfTask, id);
      if st.Finish? {
        ServedKeeps(c, x);
        TimesPush(s.finished, Served(c, x), id);
      } else {
        TimesPush(s.failed, x, id);
      }
    } else {
      HoldersUpdate(s.workers, w, n.workers[w], IdOfTask, id);
      if st.Take? {
        TimesCut(s.queue.items, Chosen(c, s.queue.items), id);
      } else if st.PutBack? {
        var x := s.workers[w].work;
        ServedKeeps(c, x);
        TimesPush(s.queue.items, Served(c, x), id);
      }
    }
  }

  lemma IdStep(c: Config, s: State, st: Step, id: nat)
    requires Enabled(c, s, st) && IdInv(s, id) && TasksInv(c, s) && ShutdownInv(s)
    ensures IdInv(Next(c, s, st), id)
  {
    if st.Parser().Some? {
      IdStepOfParser(c, s, st, id);
    } else if st.Worker().Some? {
      IdStepOfWorker(c, s, st, id);
    } else {
      hide Times, Holders, CensusOf, Chosen, Served, Shaped, Admissible, MayWake, TasksInv;
      if st.NotifyFd? {
        HoldersWakeOne(s.parsers, st.who, IdOfIntake, id);
      } else if st.BroadcastFds? {
        HoldersWakeAll(s.parsers, IdOfIntake, id);
      } else if st.BroadcastQueue? {
        HoldersWakeAll(s.workers, IdOfTask, id);
      }
    }
  }

  lemma TasksStepOfWorker(c: Config, s: State, st: Step)
    requires Enabled(c, s, st) && TasksInv(c, s) && st.Worker().Some?
    ensures TasksInv(c, Next(c, s, st))
  {
    hide Enabled, Next, TasksInv;
    if st.PutBack? || st.Finish? {
      TasksStepOfEnd(c, s, st);
    } else {
      FrameOfWorker(c, s, st);
      QueueShrinks(c, s, st);
      WaitingWorkers(c, s, st);
      TasksKept(c, s, Next(c, s, st));
    }
  }

  /** Requests only leave the queue. */
  lemma QueueShrinks(c: Config, s: State, st: Step)
    requires Enabled(c, s, st) && st.Worker().Some? && !st.PutBack? && !st.Finish?
    ensures Next(c, s, st).finished == s.finished
    ensures forall t :: t in Next(c, s, st).queue.items ==> t in s.queue.items
  {
    hide NextOfParser, NextOfOther, Served, Shaped, MayWake, WakeOne, WakeAll, Chosen;
  }

  lemma WaitingWorkers(c: Config, s: State, st: Step)
    requires Enabled(c, s, st) && st.Worker().Some? && TasksInv(c, s)
    ensures var n := Next(c, s, st);
            forall i :: 0 <= i < |n.workers| && n.workers[i].Busy? ==> Waiting(c, n.workers[i].work)
  {
    hide Enabled, Next, Waiting, Complete, Admissible, Chosen;
    var n := Next(c, s, st);
    forall i | 0 <= i < |n.workers| && n.workers[i].Busy?
      ensures Waiting(c, n.workers[i].work)
    {
      BusyBefore(c, s, st, i);
    }
  }

  lemma TasksKept(c: Config, s: State, n: State)
    requires TasksInv(c, s) && n.parsers == s.parsers && n.finished == s.finished
    requires forall t :: t in n.queue.items ==> t in s.queue.items
    requires forall i :: 0 <= i < |n.workers| && n.workers[i].Busy? ==> Waiting(c, n.workers[i].work)
    ensures TasksInv(c, n)
  {
    hide Waiting, Complete, Admissible;
    forall i | 0 <= i < |n.queue.items|
      ensures Waiting(c, n.queue.items[i])
    {
      assert n.queue.items[i] in s.queue.items;
    }
  }

  /** The round of a worker ends: its request is put back or finished. */
  lemma TasksStepOfEnd(c: Config, s: State, st: Step)
    requires Enabled(c, s, st) && TasksInv(c, s) && (st.PutBack? || st.Finish?)
    ensures TasksInv(c, Next(c, s, st))
  {
    hide NextOfParser, NextOfOther, Waiting, Complete, Served, Admissible, Shaped, MayWake, WakeAll;
    ServedKeeps(c, s.workers[st.w].work);
    var n := Next(c, s, st);
    forall i | 0 <= i < |n.workers| && n.workers[i].Busy?
      ensures Waiting(c, n.workers[i].work)
    {
      assert n.workers[i] == s.workers[i];
    }
  }

  lemma TasksStep(c: Config, s: State, st: Step)
    requires Enabled(c, s, st) && TasksInv(c, s)
    ensures TasksInv(c, Next(c, s, st))
  {
    if st.Worker().Some? {
      TasksStepOfWorker(c, s, st);
    } else if st.Parser().Some? {
      TasksStepOfParser(c, s, st);
    } else {
      hide NextOfParser, NextOfWorker, Waiting, Complete, Admissible, Shaped, MayWake, WakeOne, WakeAll;
    }
  }

  lemma TasksStepOfParser(c: Config, s: State, st: Step)
    requires Enabled(c, s, st) && TasksInv(c, s) && st.Parser().Some?
    ensures TasksInv(c, Next(c, s, st))
  {
    hide NextOfWorker, NextOfOther, Waiting, Complete, Served, Admissible, Shaped, MayWake, WakeOne;
    FrameOfParser(c, s, st);
    if st.Enqueue? {
      AdmissibleWaits(c, s.parsers[st.p].work.task);
    }
  }

  // ----- All together -----

  ghost predicate Inv(c: Config, s: State) {
    IntakeInv(s) && ShutdownInv(s) && WorkInv(s) && TasksInv(c, s) && IdsInv(s)
  }

  lemma InitKeeps(c: Config, s: State)
    requires Init(s)
    ensures Inv(c, s)
  {
    InitInv(s);
    forall id
      ensures IdInv(s, id)
    {
      HoldersNone(s.workers, IdOfTask, id);
      HoldersNone(s.parsers, IdOfIntake, id);
    }
  }

  lemma StepKeeps(c: Config, s: State, st: Step)
    requires Inv(c, s) && Enabled(c, s, st)
    ensures Inv(c, Next(c, s, st))
  {
    hide IntakeInv, ShutdownInv, WorkInv, TasksInv, IdInv, Enabled, Next;
    IntakeStep(c, s, st);
    ShutdownStep(c, s, st);
    WorkStep(c, s, st);
    TasksStep(c, s, st);
    forall id
      ensures IdInv(Next(c, s, st), id)
    {
      IdStep(c, s, st, id);
    }
  }

  /** The states a server can get into, with any number of parsers and workers. */
  ghost predicate Reachable(c: Config, s: State) {
    exists start, steps :: Init(start) && IsRun(c, start, steps) && After(c, start, steps) == s
  }

  /** Every reachable state satisfies all invariants. */
  lemma ReachableKeeps(c: Config, s: State)
    requires Reachable(c, s)
    ensures Inv(c, s)
  {
    hide Inv, Init, Enabled, Next;
    var start, steps :| Init(start) && IsRun(c, start, steps) && After(c, start, steps) == s;
    InitKeeps(c, start);
    RunKeeps(c, start, steps);
  }

  /** Safety over whole runs. */
  lemma {:induction false} RunKeeps(c: Config, s: State, steps: seq<Step>)
    requires Inv(c, s) && IsRun(c, s, steps)
    ensures Inv(c, After(c, s, steps))
    decreases |steps|
  {
    hide Inv, Enabled, Next;
    if steps != [] {
      StepKeeps(c, s, steps[0]);
      RunKeeps(c, Next(c, s, steps[0]), steps[1..]);
    }
  }
}
