/**
 * The whole server as a state machine: one acceptor, a parser pool, a worker pool, the two queues
 * and the main thread, interleaved in any order. One step is what one thread does between two
 * points where others may run; a condition variable may also wake a thread for no reason.
 */
module Protocol {
  import opened Common
  import opened Rounds
  import opened Queues
  import opened Pools
  import opened Tasks

  /** What a parser holds: a connection, or the request it read from one. */
  datatype Intake = Connected(fd: nat) | Parsed(task: Task)

  /** Accepting; connection queued but `notify_one` still to come; likewise for close; returned. */
  datatype Acceptor = Accepting | FdQueued | FdsClosing | Stopped

  datatype Main = JoiningAcceptor | JoiningParsers | QueueClosing | JoiningWorkers | Over

  datatype State = State(
    acceptor: Acceptor,
    shutdown: bool,
    fds: seq<nat>,
    fdClosed: bool,
    parsers: Pool<Intake>,
    queue: QueueState<Task>,
    workers: Pool<Task>,
    main: Main,
    nextId: nat,
    // history
    accepted: seq<nat>,
    taken: seq<nat>,
    admitted: multiset<nat>,
    refused: nat,
    finished: seq<Task>,
    failed: seq<Task>)

  datatype Step =
    | Accept(fd: nat)
    | Signal
    | NotifyFd(who: nat)
    | CloseFds
    | BroadcastFds
    | TakeFd(p: nat)
    | ParserWait(p: nat)
    | ParserReturn(p: nat)
    | Reject(p: nat)
    | Parse(p: nat, task: Task)
    | Enqueue(p: nat)
    | NotifyPush(p: nat, who: nat)
    | ParserSpurious(p: nat)
    | Take(w: nat)
    | WorkerWait(w: nat)
    | WorkerReturn(w: nat)
    | PutBack(w: nat)
    | NotifyBack(w: nat, who: nat)
    | Finish(w: nat)
    | Fail(w: nat)
    | WorkerSpurious(w: nat)
    | JoinAcceptor
    | JoinParsers
    | BroadcastQueue
    | JoinWorkers
  {
    /** The parser that takes the step, if one does. */
    function Parser(): Option<nat> {
      match this
      case TakeFd(p) => Some(p)
      case ParserWait(p) => Some(p)
      case ParserReturn(p) => Some(p)
      case Reject(p) => Some(p)
      case Parse(p, _) => Some(p)
      case Enqueue(p) => Some(p)
      case NotifyPush(p, _) => Some(p)
      case ParserSpurious(p) => Some(p)
      case _ => None
    }

    /** The worker that takes the step, if one does. */
    function Worker(): Option<nat> {
      match this
      case Take(w) => Some(w)
      case WorkerWait(w) => Some(w)
      case WorkerReturn(w) => Some(w)
      case PutBack(w) => Some(w)
      case NotifyBack(w, _) => Some(w)
      case Finish(w) => Some(w)
      case Fail(w) => Some(w)
      case WorkerSpurious(w) => Some(w)
      case _ => None
    }

    /** Steps caused from outside: a client connects, a signal arrives, the system wakes a thread. */
    predicate External() {
      Accept? || Signal? || ParserSpurious? || WorkerSpurious?
    }
  }

  predicate Init(s: State) {
    && s.acceptor == Accepting && !s.shutdown && s.main == JoiningAcceptor
    && s.fds == [] && !s.fdClosed && s.queue == QueueState([], false, 0)
    && |s.parsers| > 0 && (forall i :: 0 <= i < |s.parsers| ==> s.parsers[i] == Ready)
    && |s.workers| > 0 && (forall i :: 0 <= i < |s.workers| ==> s.workers[i] == Ready)
    && s.accepted == s.taken == [] && s.admitted == multiset{} && s.refused == 0
    && s.finished == s.failed == []
  }

  predicate ParserIs(s: State, p: nat, tag: Tag) {
    p < |s.parsers| && TagOf(s.parsers[p]) == tag
  }

  predicate WorkerIs(s: State, w: nat, tag: Tag) {
    w < |s.workers| && TagOf(s.workers[w]) == tag
  }

  /** The task worker `w` serves is in a state the round functions are defined on. */
  predicate Serving(s: State, w: nat) {
    WorkerIs(s, w, IsBusy) && Shaped(s.workers[w].work)
  }

  predicate Enabled(c: Config, s: State, st: Step) {
    match st
    case Accept(_) => s.acceptor == Accepting
    case Signal => true
    case NotifyFd(who) => s.acceptor == FdQueued && MayWake(s.parsers, who)
    case CloseFds => s.acceptor == Accepting && s.shutdown
    case BroadcastFds => s.acceptor == FdsClosing
    case TakeFd(p) => ParserIs(s, p, IsReady) && s.fds != []
    case ParserWait(p) => ParserIs(s, p, IsReady) && s.fds == [] && !s.fdClosed
    case ParserReturn(p) => ParserIs(s, p, IsReady) && s.fds == [] && s.fdClosed
    case Reject(p) => ParserIs(s, p, IsBusy) && s.parsers[p].work.Connected?
    case Parse(p, task) =>
      && ParserIs(s, p, IsBusy) && s.parsers[p].work.Connected?
      && Admissible(task) && task.job.id == s.nextId
    case Enqueue(p) => ParserIs(s, p, IsBusy) && s.parsers[p].work.Parsed?
    case NotifyPush(p, who) => ParserIs(s, p, IsNotifying) && MayWake(s.workers, who)
    case ParserSpurious(p) => ParserIs(s, p, IsAsleep)
    case Take(w) => WorkerIs(s, w, IsReady) && s.queue.items != []
    case WorkerWait(w) => WorkerIs(s, w, IsReady) && !s.queue.MayReturn()
    case WorkerReturn(w) => WorkerIs(s, w, IsReady) && s.queue.MayReturn() && s.queue.items == []
    case PutBack(w) => Serving(s, w) && Served(c, s.workers[w].work).job.Remaining() > 0
    case NotifyBack(w, who) => WorkerIs(s, w, IsNotifying) && MayWake(s.workers, who)
    case Finish(w) => Serving(s, w) && Served(c, s.workers[w].work).job.Remaining() == 0
    case Fail(w) => WorkerIs(s, w, IsBusy)
    case WorkerSpurious(w) => WorkerIs(s, w, IsAsleep)
    case JoinAcceptor => s.main == JoiningAcceptor && s.acceptor == Stopped
    case JoinParsers => s.main == JoiningParsers && forall i :: 0 <= i < |s.parsers| ==> s.parsers[i].Exited?
    case BroadcastQueue => s.main == QueueClosing
    case JoinWorkers => s.main == JoiningWorkers && forall i :: 0 <= i < |s.workers| ==> s.workers[i].Exited?
  }

  /** The request the policy takes from a non-empty queue. */
  function Chosen(c: Config, items: seq<Task>): (i: nat)
    requires items != []
    ensures i < |items|
    ensures !c.policy.SJF? ==> i == 0
  {
    if c.policy.SJF? then BestIndex(Jobs(items)) else 0
  }

  function Jobs(items: seq<Task>): (jobs: seq<Job>)
    ensures |jobs| == |items| && forall i :: 0 <= i < |items| ==> jobs[i] == items[i].job
  {
    seq(|items|, i requires 0 <= i < |items| => items[i].job)
  }

  function Next(c: Config, s: State, st: Step): State
    requires Enabled(c, s, st)
  {
    if st.Parser().Some? then NextOfParser(c, s, st)
    else if st.Worker().Some? then NextOfWorker(c, s, st)
    else NextOfOther(c, s, st)
  }

  function NextOfParser(c: Config, s: State, st: Step): State
    requires Enabled(c, s, st) && st.Parser().Some?
  {
    match st
    case TakeFd(p) =>
      s.(parsers := s.parsers[p := Busy(Connected(s.fds[0]))], fds := s.fds[1..], taken := s.taken + [s.fds[0]])
    case ParserWait(p) => s.(parsers := s.parsers[p := Asleep])
    case ParserReturn(p) => s.(parsers := s.parsers[p := Exited])
    case Reject(p) => s.(parsers := s.parsers[p := Ready])
    case Parse(p, task) => s.(parsers := s.parsers[p := Busy(Parsed(task))], nextId := s.nextId + 1)
    case Enqueue(p) =>
      var task := s.parsers[p].work.task;
      if s.queue.closed
      then s.(parsers := s.parsers[p := Ready], refused := s.refused + 1)
      else s.(parsers := s.parsers[p := Notifying],
              queue := s.queue.Pushed(task),
              admitted := s.admitted + multiset{task.job.id})
    case NotifyPush(p, who) =>
      s.(workers := WakeOne(s.workers, who), parsers := s.parsers[p := Ready])
    case ParserSpurious(p) => s.(parsers := s.parsers[p := Ready])
  }

  function NextOfWorker(c: Config, s: State, st: Step): State
    requires Enabled(c, s, st) && st.Worker().Some?
  {
    match st
    case Take(w) =>
      var i := Chosen(c, s.queue.items);
      s.(workers := s.workers[w := Busy(s.queue.items[i])], queue := s.queue.PoppedAt(i))
    case WorkerWait(w) => s.(workers := s.workers[w := Asleep])
    case WorkerReturn(w) => s.(workers := s.workers[w := Exited])
    case PutBack(w) =>
      s.(workers := s.workers[w := Notifying], queue := s.queue.Requeued(Served(c, s.workers[w].work)))
    case NotifyBack(w, who) => s.(workers := WakeOne(s.workers, who)[w := Ready])
    case Finish(w) =>
      s.(workers := WakeAll(s.workers)[w := Ready],
         queue := s.queue.Completed(),
         finished := s.finished + [Served(c, s.workers[w].work)])
    case Fail(w) =>
      s.(workers := WakeAll(s.workers)[w := Ready],
         queue := s.queue.Completed(),
         failed := s.failed + [s.workers[w].work])
    case WorkerSpurious(w) => s.(workers := s.workers[w := Ready])
  }

  /** Steps of the acceptor and of main. */
  function NextOfOther(c: Config, s: State, st: Step): State
    requires Enabled(c, s, st) && st.Parser().None? && st.Worker().None?
  {
    match st
    case Accept(fd) => s.(fds := s.fds + [fd], accepted := s.accepted + [fd], acceptor := FdQueued)
    case Signal => s.(shutdown := true)
    case NotifyFd(who) => s.(parsers := WakeOne(s.parsers, who), acceptor := Accepting)
    case CloseFds => s.(fdClosed := true, acceptor := FdsClosing)
    case BroadcastFds => s.(parsers := WakeAll(s.parsers), acceptor := Stopped)
    case JoinAcceptor => s.(main := JoiningParsers)
    case JoinParsers => s.(main := QueueClosing, queue := s.queue.(closed := true))
    case BroadcastQueue => s.(main := JoiningWorkers, workers := WakeAll(s.workers))
    case JoinWorkers => s.(main := Over)
  }

  /** `steps` can be taken one after the other from `s`. */
  predicate IsRun(c: Config, s: State, steps: seq<Step>)
    decreases |steps|
  {
    steps == [] || (Enabled(c, s, steps[0]) && IsRun(c, Next(c, s, steps[0]), steps[1..]))
  }

  function After(c: Config, s: State, steps: seq<Step>): State
    requires IsRun(c, s, steps)
    decreases |steps|
  {
    if steps == [] then s else After(c, Next(c, s, steps[0]), steps[1..])
  }
}
