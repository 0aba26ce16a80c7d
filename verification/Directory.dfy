/**
 * The server together with the directory it serves: worker threads act on files in the middle of
 * their rounds, interleaved with each other and with all other threads.
 */
module Directory {
  import opened Common
  import opened Sums
  import opened Rounds
  import opened Pools
  import opened Tasks
  import opened Protocol
  import opened Safety
  import opened Conservation
  import opened Storage
  import Liveness
  import Uploads

  datatype World = World(server: State, disk: Disk)

  /** A step of a thread, or a file operation of a worker that is serving an upload. */
  datatype Event = Thread(st: Step) | File(w: nat, a: Action)

  predicate IsPut(t: Task) {
    t.job.op.PUT?
  }

  /** `puts` records the name and the body of every upload, and of nothing else, by the id it gets. */
  predicate Recorded(puts: Puts, t: Task) {
    && (t.job.id in puts <==> IsPut(t))
    && (IsPut(t) ==> puts[t.job.id] == Put(t.job.name, t.body))
  }

  predicate PhaseIs(disk: Disk, t: Task, phase: Phase) {
    t.job.id in disk.phase && disk.phase[t.job.id] == phase
  }

  /** A thread step, where a worker ends the round of an upload only with the file in the right state. */
  predicate ThreadMay(c: Config, puts: Puts, x: World, st: Step) {
    && Enabled(c, x.server, st)
    && match st
       case Parse(_, task) => Recorded(puts, task)
       case PutBack(w) =>
         var t := x.server.workers[w].work;
         IsPut(t) ==> PhaseIs(x.disk, t, Staging(Served(c, t).job.offset))
       case Finish(w) =>
         var t := x.server.workers[w].work;
         IsPut(t) ==> PhaseIs(x.disk, t, Committed)
       case Fail(w) =>
         var t := x.server.workers[w].work;
         IsPut(t) ==> PhaseIs(x.disk, t, Dropped)
       case _ => true
  }

  /**
   * A file operation in the round worker `w` is serving: the staging file is created if it has not
   * been, written up to the end of the round, and published in the round of the last byte.
   */
  predicate FileMay(c: Config, puts: Puts, x: World, w: nat, a: Action) {
    && Protocol.Serving(x.server, w)
    && var t := x.server.workers[w].work;
    && IsPut(t) && a.id == t.job.id && Allowed(puts, x.disk, a)
    && match a
       case Create(_) => true
       case Append(id, n) => x.disk.phase[id].offset + n <= Served(c, t).job.offset
       case Drop(_) => true
       case Commit(_) => Served(c, t).job.Remaining() == 0
       case CommitFails(_) => Served(c, t).job.Remaining() == 0
  }

  predicate May(c: Config, puts: Puts, x: World, e: Event) {
    match e
    case Thread(st) => ThreadMay(c, puts, x, st)
    case File(w, a) => FileMay(c, puts, x, w, a)
  }

  function Happen(c: Config, puts: Puts, x: World, e: Event): World
    requires May(c, puts, x, e)
  {
    match e
    case Thread(st) => x.(server := Next(c, x.server, st))
    case File(w, a) => x.(disk := Do(puts, x.disk, a))
  }

  predicate IsHistory(c: Config, puts: Puts, x: World, events: seq<Event>)
    decreases |events|
  {
    events == [] || (May(c, puts, x, events[0]) && IsHistory(c, puts, Happen(c, puts, x, events[0]), events[1..]))
  }

  function Ending(c: Config, puts: Puts, x: World, events: seq<Event>): World
    requires IsHistory(c, puts, x, events)
    decreases |events|
  {
    if events == [] then x else Ending(c, puts, Happen(c, puts, x, events[0]), events[1..])
  }

  lemma {:induction false} HistoryThen(c: Config, puts: Puts, x: World, events: seq<Event>, e: Event)
    requires IsHistory(c, puts, x, events) && May(c, puts, Ending(c, puts, x, events), e)
    ensures IsHistory(c, puts, x, events + [e])
    ensures Ending(c, puts, x, events + [e]) == Happen(c, puts, Ending(c, puts, x, events), e)
    decreases |events|
  {
    hide May, Happen;
    if events == [] {
      assert events + [e] == [e] && [e][1..] == [];
    } else {
      assert (events + [e])[0] == events[0] && (events + [e])[1..] == events[1..] + [e];
      HistoryThen(c, puts, Happen(c, puts, x, events[0]), events[1..], e);
    }
  }

  lemma OneEvent(c: Config, puts: Puts, x: World, e: Event)
    requires May(c, puts, x, e)
    ensures IsHistory(c, puts, x, [e]) && Ending(c, puts, x, [e]) == Happen(c, puts, x, e)
  {
    hide May, Happen;
    assert [e][1..] == [];
  }

  lemma {:induction false} HistoryJoin(c: Config, puts: Puts, x: World, a: seq<Event>, b: seq<Event>)
    requires IsHistory(c, puts, x, a) && IsHistory(c, puts, Ending(c, puts, x, a), b)
    ensures IsHistory(c, puts, x, a + b)
    ensures Ending(c, puts, x, a + b) == Ending(c, puts, Ending(c, puts, x, a), b)
    decreases |a|
  {
    hide May, Happen;
    if a == [] {
      assert a + b == b;
    } else {
      assert (a + b)[0] == a[0] && (a + b)[1..] == a[1..] + b;
      HistoryJoin(c, puts, Happen(c, puts, x, a[0]), a[1..], b);
    }
  }

  /** The start: no thread has done anything, no upload has begun, the directory holds `files`. */
  predicate AtStart(puts: Puts, files: map<string, Bytes>, x: World) {
    Init(x.server) && x.disk == Begin(puts, files)
  }

  // ----- How files and requests go together -----

  /** Between rounds the staging file holds what was received, if a round has been served. */
  predicate BetweenRounds(puts: Puts, disk: Disk, t: Task) {
    && Recorded(puts, t)
    && (IsPut(t) ==> PhaseIs(disk, t, if t.job.rounds == 0 then Queued else Staging(t.job.offset)))
  }

  /** During a round it has got at most to the end of the round. */
  predicate InRound(c: Config, puts: Puts, disk: Disk, t: Task) {
    && Recorded(puts, t)
    && (IsPut(t) ==>
          && Shaped(t) && t.job.id in disk.phase
          && match disk.phase[t.job.id]
             case Queued => t.job.rounds == 0
             case Staging(o) => o <= Served(c, t).job.offset
             case Committed => Served(c, t).job.Remaining() == 0
             case Dropped => true)
  }

  predicate EndedAs(puts: Puts, disk: Disk, t: Task, phase: Phase) {
    Recorded(puts, t) && (IsPut(t) ==> PhaseIs(disk, t, phase))
  }

  predicate QueueFiles(puts: Puts, x: World) {
    forall i :: 0 <= i < |x.server.queue.items| ==> BetweenRounds(puts, x.disk, x.server.queue.items[i])
  }

  predicate WorkerFiles(c: Config, puts: Puts, x: World) {
    forall i :: 0 <= i < |x.server.workers| && x.server.workers[i].Busy? ==>
      InRound(c, puts, x.disk, x.server.workers[i].work)
  }

  predicate ParserFiles(puts: Puts, x: World) {
    forall i :: 0 <= i < |x.server.parsers| && x.server.parsers[i].Busy? && x.server.parsers[i].work.Parsed? ==>
      EndedAs(puts, x.disk, x.server.parsers[i].work.task, Queued)
  }

  predicate DoneFiles(puts: Puts, x: World) {
    && (forall i :: 0 <= i < |x.server.finished| ==> EndedAs(puts, x.disk, x.server.finished[i], Committed))
    && (forall i :: 0 <= i < |x.server.failed| ==> EndedAs(puts, x.disk, x.server.failed[i], Dropped))
  }

  /** Only admitted uploads have files, and each name belongs to the last upload published under it. */
  predicate NameFiles(puts: Puts, x: World) {
    && (forall id :: id in puts && id in x.disk.phase && !x.disk.phase[id].Queued? ==>
          x.server.admitted[id] > 0 && id < x.server.nextId)
    && (forall id :: id in puts && id in x.disk.phase && x.disk.phase[id].Committed? ==>
          puts[id].name in x.disk.owner)
    && (forall name :: name in x.disk.owner ==>
          var id := x.disk.owner[name];
          id in puts && id in x.disk.phase && x.disk.phase[id].Committed? && puts[id].name == name)
  }

  predicate FilesInv(c: Config, puts: Puts, x: World) {
    && QueueFiles(puts, x) && WorkerFiles(c, puts, x) && ParserFiles(puts, x) && DoneFiles(puts, x)
    && NameFiles(puts, x)
  }

  ghost predicate WorldInv(c: Config, puts: Puts, files: map<string, Bytes>, x: World) {
    && Inv(c, x.server)
    && Prefixes(puts, x.disk) && Whole(puts, files, x.disk)
    && FilesInv(c, puts, x)
  }

  // ----- A thread step -----

  /** A round does not change what `puts` says of a request. */
  lemma ServedRecorded(c: Config, puts: Puts, t: Task)
    requires Shaped(t) && Recorded(puts, t)
    ensures Recorded(puts, Served(c, t))
  {
    hide GetRound, StagingName, Wrap, SentBy;
  }

  lemma BusyRecorded(c: Config, puts: Puts, x: World, w: nat)
    requires WorkerFiles(c, puts, x) && Serving(x.server, w)
    ensures Recorded(puts, Served(c, x.server.workers[w].work))
  {
    hide Served;
    assert InRound(c, puts, x.disk, x.server.workers[w].work);
    ServedRecorded(c, puts, x.server.workers[w].work);
  }

  lemma QueueFilesThread(c: Config, puts: Puts, x: World, st: Step)
    requires ThreadMay(c, puts, x, st) && FilesInv(c, puts, x) && TasksInv(c, x.server)
    ensures QueueFiles(puts, Happen(c, puts, x, Thread(st)))
  {
    if st.Parser().Some? {
      QueueFilesOfParser(c, puts, x, st);
    } else if st.Worker().Some? {
      QueueFilesOfWorker(c, puts, x, st);
    } else {
      hide NextOfParser, NextOfWorker, Recorded, PhaseIs, WorkerFiles, ParserFiles, DoneFiles, NameFiles, TasksInv;
    }
  }

  lemma QueueFilesOfParser(c: Config, puts: Puts, x: World, st: Step)
    requires ThreadMay(c, puts, x, st) && QueueFiles(puts, x) && ParserFiles(puts, x) && TasksInv(c, x.server)
    requires st.Parser().Some?
    ensures QueueFiles(puts, Happen(c, puts, x, Thread(st)))
  {
    hide Recorded, PhaseIs, Waiting, Complete, MayWake, WakeOne, Served, Chosen;
    hide NextOfWorker, NextOfOther;
    FrameOfParser(c, x.server, st);
  }

  lemma QueueFilesOfWorker(c: Config, puts: Puts, x: World, st: Step)
    requires ThreadMay(c, puts, x, st) && QueueFiles(puts, x) && WorkerFiles(c, puts, x)
    requires st.Worker().Some?
    ensures QueueFiles(puts, Happen(c, puts, x, Thread(st)))
  {
    hide Recorded, InRound, MayWake, WakeOne, WakeAll, Served;
    hide NextOfParser, NextOfOther;
    FrameOfWorker(c, x.server, st);
    if st.PutBack? {
      BusyRecorded(c, puts, x, st.w);
    }
  }

  lemma WorkerFilesThread(c: Config, puts: Puts, x: World, st: Step)
    requires ThreadMay(c, puts, x, st) && FilesInv(c, puts, x) && TasksInv(c, x.server)
    ensures WorkerFiles(c, puts, Happen(c, puts, x, Thread(st)))
  {
    hide DoneFiles, NameFiles, ParserFiles, Complete, MayWake, RoundOf, Tasks.RunOf, StreamOf, SentBy, WakeOne, WakeAll;
    var s, n := x.server, Next(c, x.server, st);
    if st.Take? {
      TakenInRound(c, puts, x, s.queue.items[Chosen(c, s.queue.items)]);
    }
    forall i | 0 <= i < |n.workers| && n.workers[i].Busy?
      ensures InRound(c, puts, x.disk, n.workers[i].work)
    {
      BusyBefore(c, s, st, i);
    }
  }

  lemma TakenInRound(c: Config, puts: Puts, x: World, t: Task)
    requires BetweenRounds(puts, x.disk, t) && Waiting(c, t)
    ensures InRound(c, puts, x.disk, t)
  {
    hide Tasks.RunOf, StreamOf, SentBy;
  }

  lemma ParserFilesThread(c: Config, puts: Puts, x: World, st: Step)
    requires ThreadMay(c, puts, x, st) && FilesInv(c, puts, x)
    requires x.disk.phase.Keys == puts.Keys
    ensures ParserFiles(puts, Happen(c, puts, x, Thread(st)))
  {
    hide WorkerFiles, DoneFiles, QueueFiles, InRound, BetweenRounds, MayWake, WakeOne, WakeAll, Served, Chosen;
    if st.Parser().Some? {
      hide NextOfWorker, NextOfOther;
      FrameOfParser(c, x.server, st);
    } else if st.Worker().Some? {
      hide NextOfParser, NextOfOther;
      FrameOfWorker(c, x.server, st);
    } else {
      hide NextOfParser, NextOfWorker;
    }
  }

  lemma DoneFilesThread(c: Config, puts: Puts, x: World, st: Step)
    requires ThreadMay(c, puts, x, st) && FilesInv(c, puts, x)
    ensures DoneFiles(puts, Happen(c, puts, x, Thread(st)))
    ensures NameFiles(puts, Happen(c, puts, x, Thread(st)))
  {
    hide QueueFiles, ParserFiles, PhaseIs, Served;
    if st.Parser().Some? {
      hide NextOfWorker, NextOfOther, WorkerFiles, DoneFiles;
      FrameOfParser(c, x.server, st);
      SameDone(puts, x, Next(c, x.server, st));
    } else if st.Worker().Some? {
      DoneFilesOfWorker(c, puts, x, st);
    } else {
      hide NextOfParser, NextOfWorker, WorkerFiles, DoneFiles;
      SameDone(puts, x, Next(c, x.server, st));
    }
  }

  lemma SameDone(puts: Puts, x: World, n: State)
    requires DoneFiles(puts, x) && n.finished == x.server.finished && n.failed == x.server.failed
    ensures DoneFiles(puts, x.(server := n))
  {
    hide EndedAs;
  }

  lemma DoneFilesOfWorker(c: Config, puts: Puts, x: World, st: Step)
    requires ThreadMay(c, puts, x, st) && WorkerFiles(c, puts, x) && DoneFiles(puts, x) && NameFiles(puts, x)
    requires st.Worker().Some?
    ensures DoneFiles(puts, Happen(c, puts, x, Thread(st)))
    ensures NameFiles(puts, Happen(c, puts, x, Thread(st)))
  {
    hide Recorded, Served, Shaped, InRound, MayWake, WakeOne, WakeAll, Chosen, NextOfParser, NextOfOther;
    FrameOfWorker(c, x.server, st);
    if st.Finish? {
      BusyRecorded(c, puts, x, st.w);
    } else if st.Fail? {
      assert x.server.workers[st.w].Busy?;
      FailedRecorded(c, puts, x, st.w);
    }
  }

  lemma FailedRecorded(c: Config, puts: Puts, x: World, w: nat)
    requires WorkerFiles(c, puts, x) && WorkerIs(x.server, w, IsBusy)
    ensures Recorded(puts, x.server.workers[w].work)
  {
    assert InRound(c, puts, x.disk, x.server.workers[w].work);
  }

  lemma ThreadKeeps(c: Config, puts: Puts, files: map<string, Bytes>, x: World, st: Step)
    requires ThreadMay(c, puts, x, st) && WorldInv(c, puts, files, x)
    ensures WorldInv(c, puts, files, Happen(c, puts, x, Thread(st)))
  {
    hide IntakeInv, ShutdownInv, WorkInv, TasksInv, IdInv, Enabled, Next, Whole;
    hide QueueFiles, WorkerFiles, ParserFiles, DoneFiles, NameFiles;
    StepKeeps(c, x.server, st);
    QueueFilesThread(c, puts, x, st);
    WorkerFilesThread(c, puts, x, st);
    ParserFilesThread(c, puts, x, st);
    DoneFilesThread(c, puts, x, st);
  }

  // ----- A file operation -----

  /** The request a worker serves is nowhere else. */
  lemma BusyAlone(c: Config, s: State, w: nat)
    requires Inv(c, s) && WorkerIs(s, w, IsBusy)
    ensures var id := s.workers[w].work.job.id;
            && s.admitted[id] > 0 && id < s.nextId
            && (forall i :: 0 <= i < |s.queue.items| ==> s.queue.items[i].job.id != id)
            && (forall i :: 0 <= i < |s.workers| && i != w && s.workers[i].Busy? ==> s.workers[i].work.job.id != id)
            && (forall i :: 0 <= i < |s.parsers| && s.parsers[i].Busy? && s.parsers[i].work.Parsed? ==>
                  s.parsers[i].work.task.job.id != id)
            && (forall i :: 0 <= i < |s.finished| ==> s.finished[i].job.id != id)
            && (forall i :: 0 <= i < |s.failed| ==> s.failed[i].job.id != id)
  {
    hide IntakeInv, ShutdownInv, WorkInv, TasksInv, Sum;
    var id := s.workers[w].work.job.id;
    assert IdInv(s, id);
    SumAtLeast(s.workers, w, Holding(IdOfTask, id));
    NotListed(s.queue.items, id);
    NotListed(s.finished, id);
    NotListed(s.failed, id);
    forall i | 0 <= i < |s.workers| && i != w && s.workers[i].Busy?
      ensures s.workers[i].work.job.id != id
    {
      if s.workers[i].work.job.id == id {
        HeldTwice(s.workers, w, i, id);
      }
    }
    forall i | 0 <= i < |s.parsers| && s.parsers[i].Busy? && s.parsers[i].work.Parsed?
      ensures s.parsers[i].work.task.job.id != id
    {
      if s.parsers[i].work.task.job.id == id {
        SumAtLeast(s.parsers, i, Holding(IdOfIntake, id));
      }
    }
  }

  lemma NotListed(ts: seq<Task>, id: nat)
    requires Times(ts, id) == 0
    ensures forall i :: 0 <= i < |ts| ==> ts[i].job.id != id
  {
    hide Sum;
    forall i | 0 <= i < |ts|
      ensures ts[i].job.id != id
    {
      if ts[i].job.id == id {
        SumAtLeast(ts, i, TaskWithId(id));
      }
    }
  }

  lemma HeldTwice(workers: Pool<Task>, w: nat, i: nat, id: nat)
    requires w < |workers| && i < |workers| && i != w && workers[w].Busy? && workers[i].Busy?
    requires workers[w].work.job.id == id && workers[i].work.job.id == id
    ensures Holders(workers, IdOfTask, id) >= 2
  {
    hide Sum;
    HoldersUpdate(workers, w, Ready, IdOfTask, id);
    SumAtLeast(workers[w := Ready], i, Holding(IdOfTask, id));
  }

  /** A file operation changes the phase of its own upload only. */
  lemma PhasesOfOthers(puts: Puts, disk: Disk, a: Action)
    requires Allowed(puts, disk, a)
    ensures Do(puts, disk, a).phase.Keys == disk.phase.Keys
    ensures forall id :: id in disk.phase && id != a.id ==> Do(puts, disk, a).phase[id] == disk.phase[id]
    ensures !Do(puts, disk, a).phase[a.id].Queued?
  {
    hide StagingName, Uploads.WriteAt;
  }

  lemma OwnRound(c: Config, puts: Puts, x: World, w: nat, a: Action)
    requires FileMay(c, puts, x, w, a) && InRound(c, puts, x.disk, x.server.workers[w].work)
    ensures InRound(c, puts, Do(puts, x.disk, a), x.server.workers[w].work)
  {
    hide StagingName, Uploads.WriteAt, RoundOf, SentBy;
  }

  lemma OwnersAfter(puts: Puts, x: World, a: Action)
    requires Allowed(puts, x.disk, a) && NameFiles(puts, x)
    requires x.server.admitted[a.id] > 0 && a.id < x.server.nextId
    ensures NameFiles(puts, x.(disk := Do(puts, x.disk, a)))
  {
    hide StagingName, Uploads.WriteAt;
  }

  lemma FileKeepsFiles(c: Config, puts: Puts, x: World, w: nat, a: Action)
    requires FileMay(c, puts, x, w, a) && Inv(c, x.server) && FilesInv(c, puts, x)
    ensures FilesInv(c, puts, Happen(c, puts, x, File(w, a)))
  {
    hide Inv, Allowed, Do, Served, Shaped;
    BusyAlone(c, x.server, w);
    PhasesOfOthers(puts, x.disk, a);
    OwnRound(c, puts, x, w, a);
    OwnersAfter(puts, x, a);
    hide NameFiles;
    var n := Happen(c, puts, x, File(w, a));
    forall i | 0 <= i < |n.server.workers| && n.server.workers[i].Busy?
      ensures InRound(c, puts, n.disk, n.server.workers[i].work)
    {
      assert InRound(c, puts, x.disk, x.server.workers[i].work);
    }
  }

  lemma FileKeeps(c: Config, puts: Puts, files: map<string, Bytes>, x: World, w: nat, a: Action)
    requires FileMay(c, puts, x, w, a) && WorldInv(c, puts, files, x)
    requires forall u, v :: !Clash(puts, u, v)
    ensures WorldInv(c, puts, files, Happen(c, puts, x, File(w, a)))
  {
    hide Inv, FilesInv, Prefixes, Whole, Allowed, Do, Served;
    PrefixesKept(puts, x.disk, a);
    WholeKept(puts, files, x.disk, a);
    FileKeepsFiles(c, puts, x, w, a);
  }

  /** So the staging file is created in the first round, and in no later one. */
  lemma CreatedInFirstRound(c: Config, puts: Puts, files: map<string, Bytes>, x: World, w: nat, a: Action)
    requires WorldInv(c, puts, files, x) && FileMay(c, puts, x, w, a) && a.Create?
    ensures x.server.workers[w].work.job.rounds == 0
  {
    hide Inv, Prefixes, Whole, QueueFiles, ParserFiles, DoneFiles, NameFiles, Served;
    assert InRound(c, puts, x.disk, x.server.workers[w].work);
  }

  // ----- Whole histories -----

  lemma StartKeeps(c: Config, puts: Puts, files: map<string, Bytes>, x: World)
    requires AtStart(puts, files, x)
    ensures WorldInv(c, puts, files, x)
  {
    InitKeeps(c, x.server);
    BeginWhole(puts, files);
  }

  lemma {:induction false} HistoryKeeps(c: Config, puts: Puts, files: map<string, Bytes>, x: World, events: seq<Event>)
    requires WorldInv(c, puts, files, x) && IsHistory(c, puts, x, events)
    requires forall u, v :: !Clash(puts, u, v)
    ensures WorldInv(c, puts, files, Ending(c, puts, x, events))
    decreases |events|
  {
    hide WorldInv, ThreadMay, FileMay, Clash;
    if events != [] {
      match events[0] {
        case Thread(st) => ThreadKeeps(c, puts, files, x, st);
        case File(w, a) => FileKeeps(c, puts, files, x, w, a);
      }
      HistoryKeeps(c, puts, files, Happen(c, puts, x, events[0]), events[1..]);
    }
  }

  /** What worker `w` has left to do with files in its round. */
  function FileWork(c: Config, x: World, w: nat): nat
    requires Protocol.Serving(x.server, w)
  {
    var t := x.server.workers[w].work;
    if !(t.job.id in x.disk.phase) then 0
    else
      match x.disk.phase[t.job.id]
      case Queued => 3
      case Staging(o) => if o < Served(c, t).job.offset then 2 else 1
      case _ => 0
  }

  /** The next thing worker `w` can do in its round: a file operation, or the end of the round. */
  lemma RoundGoesOn(c: Config, puts: Puts, files: map<string, Bytes>, x: World, w: nat) returns (e: Event)
    requires WorldInv(c, puts, files, x) && WorkerIs(x.server, w, IsBusy)
    ensures Protocol.Serving(x.server, w) && May(c, puts, x, e)
    ensures e.File? ==> e.w == w && FileWork(c, Happen(c, puts, x, e), w) < FileWork(c, x, w)
    ensures e.Thread? ==> e.st == PutBack(w) || e.st == Finish(w) || e.st == Fail(w)
  {
    hide IntakeInv, ShutdownInv, WorkInv, IdInv, Whole, QueueFiles, ParserFiles, DoneFiles, NameFiles;
    hide StagingName, Uploads.WriteAt, Tasks.RunOf, StreamOf, RoundOf, SentBy;
    var t := x.server.workers[w].work;
    assert Waiting(c, t) && InRound(c, puts, x.disk, t);
    var id, end := t.job.id, Served(c, t).job;
    if !IsPut(t) {
      e := Thread(if end.Remaining() > 0 then PutBack(w) else Finish(w));
    } else {
      e := match x.disk.phase[id]
        case Queued => File(w, Create(id))
        case Staging(o) =>
          if o < end.offset then File(w, Append(id, end.offset - o))
          else if end.Remaining() > 0 then Thread(PutBack(w))
          else File(w, Commit(id))
        case Committed => Thread(Finish(w))
        case Dropped => Thread(Fail(w));
    }
  }

  /** Files never hold up a worker: on its own it can bring every round to its end. */
  lemma {:induction false} RoundCanEnd(c: Config, puts: Puts, files: map<string, Bytes>, x: World, w: nat)
    returns (events: seq<Event>, st: Step)
    requires WorldInv(c, puts, files, x) && WorkerIs(x.server, w, IsBusy)
    requires forall u, v :: !Clash(puts, u, v)
    ensures IsHistory(c, puts, x, events) && forall i :: 0 <= i < |events| ==> events[i].File? && events[i].w == w
    ensures ThreadMay(c, puts, Ending(c, puts, x, events), st)
    ensures st == PutBack(w) || st == Finish(w) || st == Fail(w)
    decreases if Protocol.Serving(x.server, w) then FileWork(c, x, w) else 0
  {
    hide WorldInv, ThreadMay, FileMay, Clash, FileWork;
    var e := RoundGoesOn(c, puts, files, x, w);
    if e.Thread? {
      events, st := [], e.st;
    } else {
      FileKeeps(c, puts, files, x, e.w, e.a);
      events, st := RoundCanEnd(c, puts, files, Happen(c, puts, x, e), w);
      assert ([e] + events)[1..] == events;
      events := [e] + events;
    }
  }

  /** `t` is an upload that finished under `name`. */
  predicate UploadedTo(t: Task, name: string) {
    IsPut(t) && t.job.name == name
  }

  /**
   * After every history of the whole server, however its threads and their file operations are
   * interleaved, every visible name holds its first content or, in full, the body of the upload
   * last published under it; and every upload that finished was published.
   */
  lemma DirectoryIsWhole(c: Config, puts: Puts, files: map<string, Bytes>, x: World, events: seq<Event>, name: string)
    requires AtStart(puts, files, x) && IsHistory(c, puts, x, events)
    requires forall u, v :: !Clash(puts, u, v)
    requires !IsStaging(puts, name)
    ensures var end := Ending(c, puts, x, events);
            if name in end.disk.owner
            then var id := end.disk.owner[name];
                 && id in puts && puts[id].name == name && end.server.admitted[id] > 0
                 && name in end.disk.files && end.disk.files[name] == puts[id].body
            else
              && (name in end.disk.files <==> name in files)
              && (name in files ==> end.disk.files[name] == files[name])
    ensures var end := Ending(c, puts, x, events);
            forall i :: 0 <= i < |end.server.finished| && UploadedTo(end.server.finished[i], name) ==>
              name in end.disk.owner
  {
    hide Clash, Init, Inv, QueueFiles, WorkerFiles, ParserFiles, May;
    StartKeeps(c, puts, files, x);
    HistoryKeeps(c, puts, files, x, events);
  }

  /**
   * When the server is over, a visible name holds the body of an upload that finished under it, and
   * its first content if none did.
   */
  lemma DirectoryAtEnd(c: Config, puts: Puts, files: map<string, Bytes>, x: World, events: seq<Event>, name: string)
    requires AtStart(puts, files, x) && IsHistory(c, puts, x, events)
    requires forall u, v :: !Clash(puts, u, v)
    requires !IsStaging(puts, name)
    requires Ending(c, puts, x, events).server.main == Over
    ensures var end := Ending(c, puts, x, events);
            if exists t :: t in end.server.finished && UploadedTo(t, name)
            then exists t :: t in end.server.finished && UploadedTo(t, name)
                             && name in end.disk.files && end.disk.files[name] == t.body
            else
              && (name in end.disk.files <==> name in files)
              && (name in files ==> end.disk.files[name] == files[name])
  {
    hide Clash, AtStart, May, IsHistory, Ending;
    DirectoryIsWhole(c, puts, files, x, events, name);
    HistoryKeepsFromStart(c, puts, files, x, events);
    var end := Ending(c, puts, x, events);
    if name in end.disk.owner {
      var t := PublisherFinished(c, puts, files, end, name);
      assert t in end.server.finished && UploadedTo(t, name);
    }
  }

  lemma HistoryKeepsFromStart(c: Config, puts: Puts, files: map<string, Bytes>, x: World, events: seq<Event>)
    requires AtStart(puts, files, x) && IsHistory(c, puts, x, events)
    requires forall u, v :: !Clash(puts, u, v)
    ensures WorldInv(c, puts, files, Ending(c, puts, x, events))
  {
    hide WorldInv, AtStart, May, Clash;
    StartKeeps(c, puts, files, x);
    HistoryKeeps(c, puts, files, x, events);
  }

  lemma PublishedNotFailed(puts: Puts, x: World, id: nat)
    requires DoneFiles(puts, x) && id in puts && id in x.disk.phase && x.disk.phase[id].Committed?
    ensures Times(x.server.failed, id) == 0
  {
    hide Sum;
    if Times(x.server.failed, id) > 0 {
      var i := Heavy(x.server.failed, TaskWithId(id));
    }
  }

  /** With the server over, the upload a name belongs to is among the finished requests. */
  lemma PublisherFinished(c: Config, puts: Puts, files: map<string, Bytes>, x: World, name: string) returns (t: Task)
    requires WorldInv(c, puts, files, x) && x.server.main == Over && name in x.disk.owner
    ensures t in x.server.finished && UploadedTo(t, name)
    ensures x.disk.owner[name] in puts && t.body == puts[x.disk.owner[name]].body
  {
    hide Inv, Prefixes, Whole, QueueFiles, WorkerFiles, ParserFiles, Sum;
    var id := x.disk.owner[name];
    Liveness.OverMeansDone(c, x.server);
    assert x.server.admitted[id] == Times(x.server.finished, id) + Times(x.server.failed, id);
    PublishedNotFailed(puts, x, id);
    var i := Heavy(x.server.finished, TaskWithId(id));
    t := x.server.finished[i];
  }
}
