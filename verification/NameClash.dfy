/** The condition on upload names is needed: two workers and two clashing names mix up two bodies. */
module NameClash {
  import opened Common
  import opened Sums
  import opened Rounds
  import opened Pools
  import opened Tasks
  import opened Protocol
  import opened Storage
  import opened Directory

  function Upload(id: nat, name: string, body: Bytes): (t: Task)
    ensures Admissible(t) && IsPut(t) && t.job.id == id
  {
    Task(Job(id, PUT, name, |body|, 0, 0, 0, 0, 0, 0, [], 0, "", false), body, [])
  }

  lemma NobodyToWake<T>(pool: Pool<T>)
    requires forall i :: 0 <= i < |pool| ==> !pool[i].Asleep?
    ensures MayWake(pool, 0) && WakeOne(pool, 0) == pool
  {
    SumZero(pool, Tagged(IsAsleep));
  }

  /** The acceptor waits, the first parser is in the given place, nothing is queued, nobody is asleep. */
  predicate Calm(s: State, parser: Thread<Intake>) {
    && s.acceptor == Accepting && s.fds == [] && s.queue.items == [] && !s.queue.closed
    && |s.parsers| > 0 && s.parsers[0] == parser
    && (forall i :: 0 <= i < |s.parsers| ==> !s.parsers[i].Asleep?)
    && (forall i :: 0 <= i < |s.workers| ==> !s.workers[i].Asleep?)
  }

  /** A connection is accepted and reaches the first parser. */
  lemma Connect(c: Config, puts: Puts, x: World) returns (events: seq<Event>, n: World)
    requires Calm(x.server, Ready)
    ensures IsHistory(c, puts, x, events) && Ending(c, puts, x, events) == n
    ensures n.disk == x.disk && n.server.workers == x.server.workers && n.server.nextId == x.server.nextId
    ensures Calm(n.server, Busy(Connected(0)))
  {
    hide Served, Shaped, Chosen, IsHistory, Ending, MayWake, WakeOne;
    var e1, e2, e3 := Thread(Accept(0)), Thread(NotifyFd(0)), Thread(TakeFd(0));
    NobodyToWake(x.server.parsers);
    OneEvent(c, puts, x, e1);
    var x1 := Happen(c, puts, x, e1);
    HistoryThen(c, puts, x, [e1], e2);
    var x2 := Happen(c, puts, x1, e2);
    HistoryThen(c, puts, x, [e1] + [e2], e3);
    n := Happen(c, puts, x2, e3);
    events := [e1] + [e2] + [e3];
  }

  /** Its request is read and queued. */
  lemma Queue(c: Config, puts: Puts, x: World, t: Task) returns (events: seq<Event>, n: World)
    requires Calm(x.server, Busy(Connected(0)))
    requires Admissible(t) && t.job.id == x.server.nextId && Recorded(puts, t)
    ensures IsHistory(c, puts, x, events) && Ending(c, puts, x, events) == n
    ensures n.disk == x.disk && n.server.workers == x.server.workers && n.server.nextId == x.server.nextId + 1
    ensures n.server.queue.items == [t] && Calm(n.server.(queue := n.server.queue.(items := [])), Ready)
  {
    hide Served, Shaped, Chosen, IsHistory, Ending, MayWake, WakeOne, Admissible, Recorded, NextOfWorker, NextOfOther;
    var e1, e2 := Thread(Parse(0, t)), Thread(Enqueue(0));
    OneEvent(c, puts, x, e1);
    var x1 := Happen(c, puts, x, e1);
    HistoryThen(c, puts, x, [e1], e2);
    var x2 := Happen(c, puts, x1, e2);
    var e3 := Notify(c, puts, x2);
    n := Happen(c, puts, x2, e3);
    HistoryThen(c, puts, x, [e1] + [e2], e3);
    events := [e1] + [e2] + [e3];
  }

  /** The parser calls `notify_one`, and nobody is waiting. */
  lemma Notify(c: Config, puts: Puts, x: World) returns (e: Event)
    requires |x.server.parsers| > 0 && x.server.parsers[0] == Notifying
    requires forall i :: 0 <= i < |x.server.workers| ==> !x.server.workers[i].Asleep?
    ensures May(c, puts, x, e)
    ensures Happen(c, puts, x, e) == x.(server := x.server.(parsers := x.server.parsers[0 := Ready]))
  {
    hide MayWake, WakeOne, NextOfWorker, NextOfOther;
    NobodyToWake(x.server.workers);
    e := Thread(NotifyPush(0, 0));
  }

  /** A request arrives and is taken by a worker that is free. */
  lemma Admit(c: Config, puts: Puts, x: World, t: Task, w: nat) returns (events: seq<Event>, n: World)
    requires Calm(x.server, Ready) && w < |x.server.workers| && x.server.workers[w] == Ready
    requires Admissible(t) && t.job.id == x.server.nextId && Recorded(puts, t)
    ensures IsHistory(c, puts, x, events) && Ending(c, puts, x, events) == n
    ensures n.disk == x.disk && n.server.workers == x.server.workers[w := Busy(t)]
    ensures n.server.nextId == x.server.nextId + 1 && Calm(n.server, Ready)
  {
    hide Served, Shaped, IsHistory, Ending, Admissible, Recorded, Calm;
    var a, x1 := Connect(c, puts, x);
    var b, x2 := Queue(c, puts, x1, t);
    HistoryJoin(c, puts, x, a, b);
    var e := Thread(Take(w));
    assert Chosen(c, [t]) == 0;
    assert [t][..0] + [t][0 + 1..] == [];
    HistoryThen(c, puts, x, a + b, e);
    n := Happen(c, puts, x2, e);
    events := a + b + [e];
    StillCalm(x2.server, n.server, w, t);
  }

  lemma StillCalm(s: State, n: State, w: nat, t: Task)
    requires Calm(s.(queue := s.queue.(items := [])), Ready) && w < |s.workers|
    requires n == s.(workers := s.workers[w := Busy(t)], queue := s.queue.(items := [], inflight := s.queue.inflight + 1))
    ensures Calm(n, Ready)
  {
  }

  // ----- File operations of uploads in their only round -----

  /** Worker `w` serves the upload `id`, and this round finishes it. */
  predicate OnlyRound(c: Config, puts: Puts, s: State, w: nat, id: nat) {
    && Protocol.Serving(s, w)
    && var t := s.workers[w].work;
    && IsPut(t) && t.job.id == id && t.job.rounds == 0 && Recorded(puts, t)
    && Served(c, t).job.Remaining() == 0
  }

  /** Any interleaving of the file operations of such uploads is a history of the server. */
  lemma {:induction false} RunIsHistory(c: Config, puts: Puts, x: World, run: seq<Action>, who: map<nat, nat>)
    returns (events: seq<Event>)
    requires Storage.IsRun(puts, x.disk, run)
    requires forall i :: 0 <= i < |run| ==>
      run[i].id in who && OnlyRound(c, puts, x.server, who[run[i].id], run[i].id)
    ensures IsHistory(c, puts, x, events)
    ensures Ending(c, puts, x, events) == x.(disk := Storage.After(puts, x.disk, run))
    decreases |run|
  {
    hide Allowed, Do, OnlyRound, FileMay;
    events := [];
    if run != [] {
      var e := File(who[run[0].id], run[0]);
      InOnlyRound(c, puts, x, who[run[0].id], run[0]);
      var rest := RunIsHistory(c, puts, Happen(c, puts, x, e), run[1..], who);
      events := [e] + rest;
      assert events[1..] == rest;
    }
  }

  lemma InOnlyRound(c: Config, puts: Puts, x: World, w: nat, a: Action)
    requires OnlyRound(c, puts, x.server, w, a.id) && Allowed(puts, x.disk, a)
    ensures FileMay(c, puts, x, w, a)
  {
    hide StagingName, RoundOf, SentBy;
  }

  /** A body of one byte is received in one round, whatever policy and quantum. */
  lemma OneByte(c: Config, id: nat, name: string, body: Bytes)
    requires c.Valid() && |body| == 1
    ensures Served(c, Upload(id, name, body)).job.Remaining() == 0
  {
    hide SentBy, StagingName;
    var t := Upload(id, name, body);
    assert Budget(c, t.job) == 1;
  }

  /** The uploads that get the next two ids. */
  function TwoUploads(id: nat, first: Put, second: Put): Puts {
    map[id := first, id + 1 := second]
  }

  /** One of the two is named like the staging file of the other. */
  predicate TwoClash(id: nat, first: string, second: string) {
    second == StagingName(first, id) || first == StagingName(second, id + 1)
  }

  lemma VictimVisible(id: nat, first: Put, second: Put, u: nat, v: nat)
    requires Clash(TwoUploads(id, first, second), u, v)
    ensures u != v && !IsStaging(TwoUploads(id, first, second), TwoUploads(id, first, second)[v].name)
  {
    var puts := TwoUploads(id, first, second);
    LongerName(puts, u, v);
    assert |Staged(puts, u)| > |puts[u].name| && |Staged(puts, v)| > |puts[v].name|;
  }

  /** Both uploads are with a worker, and nothing has happened to files. */
  lemma BothServed(c: Config, s: State, files: map<string, Bytes>, first: Put, second: Put)
    returns (events: seq<Event>, n: World)
    requires Init(s) && |s.workers| >= 2
    ensures var puts := TwoUploads(s.nextId, first, second);
            var start := World(s, Begin(puts, files));
            && IsHistory(c, puts, start, events) && Ending(c, puts, start, events) == n
            && n.disk == start.disk && |n.server.workers| == |s.workers|
            && n.server.workers[0] == Busy(Upload(s.nextId, first.name, first.body))
            && n.server.workers[1] == Busy(Upload(s.nextId + 1, second.name, second.body))
  {
    hide IsHistory, Ending, Upload;
    var id := s.nextId;
    var puts := TwoUploads(id, first, second);
    var x := World(s, Begin(puts, files));
    UploadRecorded(puts, id, first);
    UploadRecorded(puts, id + 1, second);
    var a, x1 := Admit(c, puts, x, Upload(id, first.name, first.body), 0);
    var b, x2 := Admit(c, puts, x1, Upload(id + 1, second.name, second.body), 1);
    HistoryJoin(c, puts, x, a, b);
    events, n := a + b, x2;
  }

  lemma UploadRecorded(puts: Puts, id: nat, put: Put)
    requires id in puts && puts[id] == put
    ensures Recorded(puts, Upload(id, put.name, put.body))
  {
  }

  /**
   * In a server with two workers, under every policy: a history from the start after which a
   * visible name holds the body of an upload to another name, if the names clash.
   */
  lemma ClashInServer(c: Config, s: State, files: map<string, Bytes>, first: Put, second: Put, u: nat, v: nat)
    returns (events: seq<Event>)
    requires c.Valid() && Init(s) && |s.workers| >= 2
    requires |first.body| == |second.body| == 1 && first.body != second.body
    requires Clash(TwoUploads(s.nextId, first, second), u, v)
    ensures var puts := TwoUploads(s.nextId, first, second);
            var start := World(s, Begin(puts, files));
            && AtStart(puts, files, start) && IsHistory(c, puts, start, events)
            && !Whole(puts, files, Ending(c, puts, start, events).disk)
  {
    hide StagingName, Served, Whole, IsHistory, Ending, Storage.IsRun, Storage.After, IsStaging, Do, Allowed;
    var id := s.nextId;
    var puts := TwoUploads(id, first, second);
    var x := World(s, Begin(puts, files));
    var start, n := BothServed(c, s, files, first, second);
    OneByte(c, id, first.name, first.body);
    OneByte(c, id + 1, second.name, second.body);
    VictimVisible(id, first, second, u, v);
    ClashMixesUp(puts, files, u, v);
    var run := Mixup(puts, u, v);
    var more := RunIsHistory(c, puts, n, run, map[id := 0, id + 1 := 1]);
    HistoryJoin(c, puts, x, start, more);
    events := start + more;
    MixedUp(puts, files, Storage.After(puts, Begin(puts, files), run), u, v);
  }

  lemma MixedUp(puts: Puts, files: map<string, Bytes>, end: Disk, u: nat, v: nat)
    requires u in puts && v in puts && puts[u].body != puts[v].body && !IsStaging(puts, puts[v].name)
    requires puts[v].name in end.files && end.files[puts[v].name] == puts[u].body
    requires puts[v].name in end.owner && end.owner[puts[v].name] == v
    ensures !Whole(puts, files, end)
  {
    hide StagingName;
  }

  /** Whatever two clients upload under these names, and however the server runs, visible files are whole. */
  ghost predicate AlwaysWholeServer(c: Config, s: State, first: string, second: string) {
    forall a: Bytes, b: Bytes, files: map<string, Bytes>, events: seq<Event> ::
      var puts := TwoUploads(s.nextId, Put(first, a), Put(second, b));
      Init(s) && IsHistory(c, puts, World(s, Begin(puts, files)), events) ==>
        Whole(puts, files, Ending(c, puts, World(s, Begin(puts, files)), events).disk)
  }

  /**
   * Two uploads to a server with two workers or more: visible files are whole in every history if
   * and only if neither is named like the staging file of the other.
   */
  lemma WholeServerExactly(c: Config, s: State, first: string, second: string)
    requires c.Valid() && Init(s) && |s.workers| >= 2
    ensures AlwaysWholeServer(c, s, first, second) <==> !TwoClash(s.nextId, first, second)
  {
    hide StagingName, Init, Whole, IsHistory, Ending;
    var id := s.nextId;
    if TwoClash(id, first, second) {
      var p, q := Put(first, "a"), Put(second, "b");
      assert "a"[0] != "b"[0];
      var puts := TwoUploads(id, p, q);
      var u, v := if second == StagingName(first, id) then id + 1 else id, if second == StagingName(first, id) then id else id + 1;
      assert Clash(puts, u, v);
      var events := ClashInServer(c, s, map[], p, q, u, v);
      assert !Whole(puts, map[], Ending(c, puts, World(s, Begin(puts, map[])), events).disk);
    } else {
      forall a: Bytes, b: Bytes, files: map<string, Bytes>, events: seq<Event>
        | IsHistory(c, TwoUploads(id, Put(first, a), Put(second, b)),
                    World(s, Begin(TwoUploads(id, Put(first, a), Put(second, b)), files)), events)
        ensures var puts := TwoUploads(id, Put(first, a), Put(second, b));
                Whole(puts, files, Ending(c, puts, World(s, Begin(puts, files)), events).disk)
      {
        var puts := TwoUploads(id, Put(first, a), Put(second, b));
        TwoApart(id, Put(first, a), Put(second, b));
        HistoryKeepsFromStart(c, puts, files, World(s, Begin(puts, files)), events);
      }
    }
  }

  lemma TwoApart(id: nat, first: Put, second: Put)
    requires !TwoClash(id, first.name, second.name)
    ensures forall u, v :: !Clash(TwoUploads(id, first, second), u, v)
  {
    var puts := TwoUploads(id, first, second);
    forall u, v
      ensures !Clash(puts, u, v)
    {
      if Clash(puts, u, v) {
        LongerName(puts, u, v);
      }
    }
  }
}
