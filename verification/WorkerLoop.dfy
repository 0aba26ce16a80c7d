/** The worker thread of main.cpp, from its first request to the end of a closed queue. */
module WorkerLoop {
  import opened Common
  import opened Rounds
  import opened Net
  import opened Scheduling
  import opened Serving
  import opened Uploads
  import opened Queues
  import opened Tasks
  import opened Worker
  import opened Ledger

  /** `links` records the state of every connection. */
  ghost predicate Mirrors(links: map<nat, Link>, conns: map<nat, Connection>)
    reads conns.Values
  {
    links.Keys == conns.Keys && forall id :: id in conns ==> links[id] == conns[id].State()
  }

  /** The books describe the objects. */
  ghost predicate Matches(b: Books, queue: RequestQueue, store: FileStore, conns: map<nat, Connection>)
    reads queue, store, conns.Values
  {
    b.queued == queue.items && b.files == store.files && b.refusals == store.refusals && Mirrors(b.links, conns)
  }

  /** Each request has a connection of its own. */
  ghost predicate OwnConnections(conns: map<nat, Connection>) {
    forall a, b :: a in conns && b in conns && a != b ==> conns[a] != conns[b]
  }

  /** The loop's parameters are what `x` says. */
  ghost predicate Describes(x: Given, s: Scheduler, files: map<nat, Bytes>, packetization: int) {
    && x.config == s.Setting() && x.config.Valid()
    && x.present == files.Keys && x.packetization == packetization
    && (forall id :: id in files && id in x.bodies ==> files[id] == x.bodies[id])
  }

  /** One iteration after the request was taken. */
  method Iterate(s: Scheduler, queue: RequestQueue, store: FileStore, conns: map<nat, Connection>,
                 file: Option<Bytes>, packetization: int, r: Request, budget: nat,
                 ghost x: Given, ghost b: Books, ghost i: nat)
    returns (outcome: Outcome, ghost links: map<nat, Link>)
    requires x.config == s.Setting() && x.packetization == packetization && OwnConnections(conns)
    requires i < |b.queued| && Mirrors(b.links, conns) && b.files == store.files && b.refusals == store.refusals
    requires Known(x, b, b.queued[i])
    requires file.Some? <==> b.queued[i].id in x.present
    requires file.Some? ==> file.value == x.bodies[b.queued[i].id]
    requires r.Value() == Charged(s.Setting(), b.queued[i]) && budget == Budget(s.Setting(), b.queued[i])
    requires queue.items == b.queued[..i] + b.queued[i + 1..] && queue.inflight == 1
    modifies r, queue`items, queue`inflight, store, conns.Values
    ensures queue.inflight == 0 && queue.closed == old(queue.closed)
    ensures Mirrors(links, conns)
    ensures Turn(x, b, Entered(b, links, store.files, store.refusals, outcome, r.Value(), queue.items),
                 i, outcome, r.Value())
  {
    hide Known, RoundTurn, IsValidFilename, Charged, Budget, Turn, Entered;
    ghost var before := b.queued[i];
    KnownParts(x, b, before);
    ChargedKeeps(s.Setting(), before);
    var conn := conns[r.id];
    outcome := ServeAndDecide(s, queue, r, budget, before, store, conn, file, x.bodies[before.id], packetization);
    links := b.links[before.id := conn.State()];
    TakesTurn(x, b, links, store.files, store.refusals, i, outcome, r.Value(), queue.items);
  }

  /** The books after a round. */
  ghost function Entered(b: Books, links: map<nat, Link>, files: map<string, Bytes>, refusals: seq<string>,
                         outcome: Outcome, job: Job, queued: seq<Job>): Books {
    Books(queued,
          if outcome.Finished? then b.finished + [job] else b.finished,
          if outcome.Failed? then b.failed + [job] else b.failed,
          links, files, refusals)
  }

  lemma TakesTurn(x: Given, b: Books, links: map<nat, Link>, files: map<string, Bytes>, refusals: seq<string>,
                  i: nat, outcome: Outcome, job: Job, queued: seq<Job>)
    requires i < |b.queued| && Known(x, b, b.queued[i])
    requires links.Keys == b.links.Keys
    requires forall id :: id in b.links && id != b.queued[i].id ==> links[id] == b.links[id]
    requires queued == b.queued[..i] + b.queued[i + 1..] + if outcome.PutBack? then [job] else []
    requires var j := b.queued[i];
             RoundTurn(x.config, j, x.bodies[j.id], IsValidFilename(j.name) && j.id in x.present && x.packetization > 0,
                       outcome, job, b.links[j.id], links[j.id], b.files, files, b.refusals, refusals)
    ensures Turn(x, b, Entered(b, links, files, refusals, outcome, job, queued), i, outcome, job)
  {
    hide RoundTurn;
  }

  /** One iteration: the request the policy chooses, served for one round; nothing when all is done. */
  method TakeTurn(s: Scheduler, queue: RequestQueue, store: FileStore, conns: map<nat, Connection>,
                  files: map<nat, Bytes>, packetization: int, ghost x: Given, ghost b: Books)
    returns (job: Option<Job>, outcome: Outcome, ghost i: nat, ghost n: Books)
    requires queue.closed && queue.inflight == 0
    requires Describes(x, s, files, packetization) && OwnConnections(conns)
    requires Matches(b, queue, store, conns) && AllKnown(x, b)
    modifies queue`items, queue`inflight, store, conns.Values
    ensures queue.closed && queue.inflight == 0 && Matches(n, queue, store, conns)
    ensures job.None? ==> queue.items == [] && n == b
    ensures job.Some? ==> Turn(x, b, n, i, outcome, job.value)
    ensures job.Some? ==> n == Entered(b, n.links, n.files, n.refusals, outcome, job.value, n.queued)
    ensures job.Some? && s.policy != SJF ==> i == 0
    ensures job.Some? && s.policy == SJF ==> b.queued != [] && i == BestIndex(b.queued)
  {
    hide Known, OwnConnections, BestIndex, Turn, Charged, Budget, Mirrors;
    var r, budget := TakeNext(s, queue);
    i, n := 0, b;
    if r.None? {
      return None, Failed, i, n;
    }
    i := if s.policy == SJF then BestIndex(b.queued) else 0;
    assert Known(x, b, b.queued[i]);
    KnownParts(x, b, b.queued[i]);
    ChargedKeeps(s.Setting(), b.queued[i]);
    var request := r.value;
    var file := if request.id in files then Some(files[request.id]) else None;
    ghost var links;
    outcome, links := Iterate(s, queue, store, conns, file, packetization, request, budget, x, b, i);
    job := Some(request.Value());
    n := Entered(b, links, store.files, store.refusals, outcome, request.Value(), queue.items);
  }

  ghost predicate AllKnown(x: Given, b: Books) {
    forall i :: 0 <= i < |b.queued| ==> Known(x, b, b.queued[i])
  }

  /**
   * The loop of a single worker on a closed queue, under any policy. It ends with the queue empty
   * and nothing in flight. The books are sound at the end: every request is finished or failed
   * exactly once, each finished client was sent its whole answer, each upload that finished last
   * under its name is there in full, and requests fail only for reasons outside the server.
   */
  method WorkerThread(s: Scheduler, queue: RequestQueue, store: FileStore, conns: map<nat, Connection>,
                      files: map<nat, Bytes>, packetization: int, ghost x: Given, ghost opening: Books)
    returns (finished: seq<Job>, failed: seq<Job>, ghost books: Books)
    requires queue.closed && queue.inflight == 0
    requires Describes(x, s, files, packetization) && OwnConnections(conns)
    requires Sound(x, opening) && opening.finished == opening.failed == []
    requires Matches(opening, queue, store, conns)
    modifies queue`items, queue`inflight, store, conns.Values
    ensures queue.items == [] && queue.closed && queue.inflight == 0
    ensures Sound(x, books) && books.finished == finished && books.failed == failed
    ensures Matches(books, queue, store, conns)
  {
    hide Sound, Turn, OwnConnections, Tracked, JobRank, Mirrors;
    finished, failed := [], [];
    books := opening;
    SoundIsTracked(x, books);
    while true
      invariant queue.closed && queue.inflight == 0
      invariant Matches(books, queue, store, conns) && books.finished == finished && books.failed == failed
      invariant Sound(x, books)
      invariant AllTracked(x.config, books.queued, x.bodies) && AllKnown(x, books)
      decreases TotalRank(x.config, books.queued, x.bodies)
    {
      ghost var b := books;
      ghost var i;
      var job, outcome;
      job, outcome, i, books := TakeTurn(s, queue, store, conns, files, packetization, x, b);
      if job.None? {
        return;
      }
      if outcome == Finished {
        finished := finished + [job.value];
      } else if outcome == Failed {
        failed := failed + [job.value];
      }
      TurnKeeps(x, b, books, i, outcome, job.value);
      SoundIsTracked(x, books);
      TurnLowers(x, b, books, i, outcome, job.value);
    }
  }

  lemma SoundIsTracked(x: Given, b: Books)
    requires Sound(x, b)
    ensures AllTracked(x.config, b.queued, x.bodies) && AllKnown(x, b)
  {
    hide Tracked, Known, OnWire;
    forall i | 0 <= i < |b.queued|
      ensures Known(x, b, b.queued[i])
    {
      assert JobSound(x, b, b.queued[i]);
    }
  }

  /** An iteration takes a request away for good or brings it closer to its end. */
  lemma TurnLowers(x: Given, b: Books, n: Books, i: nat, outcome: Outcome, r: Job)
    requires x.config.Valid() && Turn(x, b, n, i, outcome, r)
    requires AllTracked(x.config, b.queued, x.bodies) && AllTracked(x.config, n.queued, x.bodies)
    ensures TotalRank(x.config, n.queued, x.bodies) < TotalRank(x.config, b.queued, x.bodies)
  {
    hide Tracked, JobRank, UploadTurn, Excused, RoundOf, SentBy;
    var c, j, rest := x.config, b.queued[i], b.queued[..i] + b.queued[i + 1..];
    TotalRankCut(c, b.queued, i, x.bodies);
    RankIsPositive(c, j, x.bodies);
    if outcome.PutBack? {
      TrackedRound(c, j, x.bodies);
      TotalRankAppend(c, rest, [r], x.bodies);
      TotalRankOne(c, r, x.bodies);
    }
  }

  lemma RankIsPositive(c: Config, j: Job, bodies: map<nat, Bytes>)
    requires Tracked(c, j, bodies)
    ensures JobRank(c, j, bodies) > 0
  {
  }

  lemma TotalRankOne(c: Config, j: Job, bodies: map<nat, Bytes>)
    requires Tracked(c, j, bodies)
    ensures AllTracked(c, [j], bodies) && TotalRank(c, [j], bodies) == JobRank(c, j, bodies)
  {
    assert TotalRank(c, [j], bodies) == JobRank(c, j, bodies) + TotalRank(c, [j][1..], bodies);
  }
}
