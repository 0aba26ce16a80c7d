/** What a worker's loop keeps between two iterations, over requests, connections and files. */
module Ledger {
  import opened Common
  import opened Sums
  import opened Rounds
  import opened Delivery
  import opened Net
  import opened Serving
  import opened Uploads
  import opened Tasks
  import opened Worker
  import Storage

  // ----- One request -----

  /** The request is where its rounds have brought it. */
  ghost predicate Tracked(c: Config, j: Job, bodies: map<nat, Bytes>) {
    && j.id in bodies && |bodies[j.id]| == j.total && j.offset <= j.total
    && Waiting(c, Ideal(c, j, bodies[j.id]))
  }

  /** The request was served to its last byte. */
  ghost predicate Ended(c: Config, j: Job, bodies: map<nat, Bytes>) {
    && j.id in bodies && |bodies[j.id]| == j.total && j.offset <= j.total
    && Complete(c, Ideal(c, j, bodies[j.id]))
  }

  /** The request on a connection that has not failed. */
  function Ideal(c: Config, j: Job, body: Bytes): Task
    requires |body| == j.total && j.offset <= j.total
  {
    Task(j, body, StreamOf(c, body, Start(j), j.rounds))
  }

  ghost function JobRank(c: Config, j: Job, bodies: map<nat, Bytes>): nat
    requires Tracked(c, j, bodies)
  {
    1 + Rank(c, Ideal(c, j, bodies[j.id]))
  }

  ghost predicate AllTracked(c: Config, items: seq<Job>, bodies: map<nat, Bytes>) {
    forall i :: 0 <= i < |items| ==> Tracked(c, items[i], bodies)
  }

  ghost function TotalRank(c: Config, items: seq<Job>, bodies: map<nat, Bytes>): nat
    requires AllTracked(c, items, bodies)
  {
    if items == [] then 0 else JobRank(c, items[0], bodies) + TotalRank(c, items[1..], bodies)
  }

  lemma {:induction false} TotalRankAppend(c: Config, a: seq<Job>, b: seq<Job>, bodies: map<nat, Bytes>)
    requires AllTracked(c, a, bodies) && AllTracked(c, b, bodies)
    ensures AllTracked(c, a + b, bodies)
    ensures TotalRank(c, a + b, bodies) == TotalRank(c, a, bodies) + TotalRank(c, b, bodies)
  {
    hide Tracked, JobRank;
    if a == [] {
      assert a + b == b;
    } else {
      assert (a + b)[1..] == a[1..] + b;
      TotalRankAppend(c, a[1..], b, bodies);
    }
  }

  lemma TotalRankCut(c: Config, items: seq<Job>, i: nat, bodies: map<nat, Bytes>)
    requires i < |items| && AllTracked(c, items, bodies)
    ensures AllTracked(c, items[..i] + items[i + 1..], bodies) && Tracked(c, items[i], bodies)
    ensures TotalRank(c, items[..i] + items[i + 1..], bodies) + JobRank(c, items[i], bodies)
            == TotalRank(c, items, bodies)
  {
    hide Tracked, JobRank;
    var a, x, b := items[..i], items[i], items[i + 1..];
    assert items == a + ([x] + b);
    TotalRankAppend(c, a, [x] + b, bodies);
    TotalRankAppend(c, [x], b, bodies);
    TotalRankAppend(c, a, b, bodies);
    assert TotalRank(c, [x], bodies) == JobRank(c, x, bodies) + TotalRank(c, [x][1..], bodies);
  }

  /** A successful round keeps the request on track and, if it is put back, lowers its rank. */
  lemma TrackedRound(c: Config, j: Job, bodies: map<nat, Bytes>)
    requires c.Valid() && Tracked(c, j, bodies)
    ensures var r := RoundOf(c, bodies[j.id], j);
            && (r.Remaining() > 0 ==> Tracked(c, r, bodies) && JobRank(c, r, bodies) < JobRank(c, j, bodies))
            && (r.Remaining() == 0 ==> Ended(c, r, bodies))
  {
    hide RunOf, RoundOf, SentBy, Rank;
    var t := Ideal(c, j, bodies[j.id]);
    ServedKeeps(c, t);
    if RoundOf(c, bodies[j.id], j).Remaining() > 0 {
      RankDecreases(c, t);
    }
  }

  // ----- The books -----

  /** The requests by what became of them, their connections, and the served directory. */
  datatype Books = Books(
    queued: seq<Job>,
    finished: seq<Job>,
    failed: seq<Job>,
    links: map<nat, Link>,
    files: map<string, Bytes>,
    refusals: seq<string>)

  /**
   * What the loop was given: the requests at its start, the file or body of each, the GETs whose
   * file exists, and the uploads whose client sends the whole body.
   */
  datatype Given = Given(
    config: Config,
    start: seq<Job>,
    bodies: map<nat, Bytes>,
    present: set<nat>,
    packetization: int,
    intact: set<nat>)

  function JobWithId(id: nat): Job -> nat {
    (j: Job) => One(j.id == id)
  }

  /** How often a request id occurs. */
  function Copies(items: seq<Job>, id: nat): nat {
    Sum(items, JobWithId(id))
  }

  /** Every request of the start is queued, finished or failed, exactly once. */
  predicate Counted(x: Given, b: Books, id: nat) {
    Copies(b.queued, id) + Copies(b.finished, id) + Copies(b.failed, id) == Copies(x.start, id) <= 1
  }

  ghost predicate AllCounted(x: Given, b: Books) {
    forall id :: Counted(x, b, id)
  }

  /** The request is one of the start, with a name the parser lets through and a connection. */
  ghost predicate Known(x: Given, b: Books, j: Job) {
    && IsValidFilename(j.name)
    && j.id in b.links && j.id in x.bodies && |x.bodies[j.id]| == j.total && j.offset <= j.total
    && (exists s :: s in x.start && s.id == j.id && s.name == j.name)
  }

  /** No request of the start is named like the staging file of another. */
  ghost predicate NoClash(x: Given) {
    forall u, v :: u in x.start && v in x.start ==> u.name != StagingName(v.name, v.id)
  }

  /** Unless it is broken, the connection has carried exactly what the rounds so far sent. */
  predicate OnWire(c: Config, j: Job, body: Bytes, link: Link)
    requires |body| == j.total && j.offset <= j.total
  {
    !link.broken ==> link.wire == StreamOf(c, body, Start(j), j.rounds)
  }

  /** An upload has its prefix staged and the rest of its body, or what the client sends of it, ahead. */
  ghost predicate Ready(j: Job, body: Bytes, intact: bool, files: map<string, Bytes>, link: Link) {
    j.op.PUT? ==>
      && Uploading(j, body, files, link.incoming)
      && (intact ==> Arrives(j, body, link.incoming))
  }

  /** An upload that has begun works under its own staging name. */
  predicate OwnName(j: Job) {
    j.op.PUT? && Begun(j) ==> j.staging == StagingName(j.name, j.id)
  }

  ghost predicate QueuedSound(x: Given, b: Books) {
    forall i :: 0 <= i < |b.queued| ==> JobSound(x, b, b.queued[i])
  }

  /** The request and its connection are where its rounds have brought them. */
  ghost predicate JobSound(x: Given, b: Books, j: Job) {
    && Tracked(x.config, j, x.bodies)
    && Known(x, b, j)
    && OwnName(j)
    && OnWire(x.config, j, x.bodies[j.id], b.links[j.id])
  }

  ghost predicate UploadsReady(x: Given, b: Books) {
    forall i :: 0 <= i < |b.queued| ==>
      b.queued[i].id in x.bodies && b.queued[i].id in b.links
      && Ready(b.queued[i], x.bodies[b.queued[i].id], b.queued[i].id in x.intact, b.files, b.links[b.queued[i].id])
  }

  /** All a client is sent for a request that finishes. */
  function Answer(op: Operation, body: Bytes): Bytes {
    match op
    case GET => StatusLine(|body|) + body
    case PUT => StatusLine(0) + StatusLine(0)
  }

  /** Finished requests took their last round to finish, and their clients have the whole answer. */
  ghost predicate FinishedSound(x: Given, b: Books) {
    forall k :: 0 <= k < |b.finished| ==>
      var j := b.finished[k];
      && Ended(x.config, j, x.bodies)
      && Known(x, b, j)
      && (!b.links[j.id].broken ==> b.links[j.id].wire == Answer(j.op, x.bodies[j.id]))
  }

  /** No upload after the `k`-th finished request was to the same name. */
  predicate LastTo(finished: seq<Job>, k: nat)
    requires k < |finished|
  {
    forall m :: k < m < |finished| && finished[m].op.PUT? ==> finished[m].name != finished[k].name
  }

  /**
   * Every name that was uploaded to holds the whole body of the last upload to finish, whatever
   * became of other uploads.
   */
  ghost predicate Published(x: Given, b: Books) {
    forall k :: 0 <= k < |b.finished| && b.finished[k].op.PUT? && LastTo(b.finished, k) ==>
      var j := b.finished[k];
      j.id in x.bodies && j.name in b.files && b.files[j.name] == x.bodies[j.id]
  }

  /** The operating system refused an operation on the staging file of the upload. */
  predicate Refused(b: Books, j: Job) {
    j.op.PUT? && StagingName(j.name, j.id) in b.refusals
  }

  /**
   * A failed request failed for a reason of its own outside the server's logic. For an upload that
   * arrives in full that is a refused operation on its own staging file.
   */
  ghost predicate Excused(x: Given, b: Books, j: Job) {
    && (j.op.GET? ==> j.id !in x.present || x.packetization <= 0 || (j.id in b.links && b.links[j.id].broken))
    && (j.op.PUT? && NoClash(x) && j.id in x.intact ==> Refused(b, j))
  }

  /** Every operation that was refused belongs to an upload that failed. */
  ghost predicate RefusalsSound(b: Books) {
    forall name :: name in b.refusals ==>
      exists k :: 0 <= k < |b.failed| && b.failed[k].op.PUT? && name == StagingName(b.failed[k].name, b.failed[k].id)
  }

  ghost predicate FailedSound(x: Given, b: Books) {
    forall k :: 0 <= k < |b.failed| ==> Excused(x, b, b.failed[k])
  }

  ghost predicate Sound(x: Given, b: Books) {
    && AllCounted(x, b)
    && QueuedSound(x, b)
    && FinishedSound(x, b)
    && FailedSound(x, b)
    && RefusalsSound(b)
    && (NoClash(x) ==> UploadsReady(x, b) && Published(x, b))
  }

  /** A server that starts with fresh requests and silent connections starts with sound books. */
  lemma FreshIsSound(x: Given, b: Books)
    requires b.queued == x.start && b.finished == b.failed == [] && b.refusals == []
    requires forall id :: Copies(x.start, id) <= 1
    requires forall i :: 0 <= i < |x.start| ==>
      var j := x.start[i];
      && j.Fresh() && IsValidFilename(j.name)
      && j.id in b.links && b.links[j.id].wire == []
      && j.id in x.bodies && |x.bodies[j.id]| == j.total
      && (j.op.GET? ==> j.total < FILE_LENGTHS)
      && var ahead := Ahead(j.pending, 0, b.links[j.id].incoming);
      && (j.op.PUT? ==> Agree(x.bodies[j.id], ahead))
      && (j.op.PUT? && j.id in x.intact ==> x.bodies[j.id] <= ahead)
    ensures Sound(x, b)
  {
    hide IsValidFilename, Ahead;
    forall i | 0 <= i < |x.start|
      ensures JobSound(x, b, x.start[i])
      ensures Ready(x.start[i], x.bodies[x.start[i].id], x.start[i].id in x.intact, b.files, b.links[x.start[i].id])
    {
      var j := x.start[i];
      assert j in x.start;
      AdmissibleWaits(x.config, Task(j, x.bodies[j.id], []));
      assert x.bodies[j.id][0..] == x.bodies[j.id];
    }
  }

  /** Whatever a client sends, it is the beginning of some body of the size it announced, or goes beyond it. */
  lemma SomeBody(total: nat, sent: Bytes) returns (body: Bytes)
    ensures |body| == total && Agree(body, sent)
  {
    body := if total <= |sent| then sent[..total] else sent + seq(total - |sent|, i => 'x');
  }

  // ----- One iteration -----

  /** What one iteration did: request `i` was taken, and its round left it as `r`. */
  ghost predicate Turn(x: Given, b: Books, n: Books, i: nat, outcome: Outcome, r: Job) {
    && i < |b.queued|
    && var j, rest := b.queued[i], b.queued[..i] + b.queued[i + 1..];
    && n.queued == (if outcome.PutBack? then rest + [r] else rest)
    && n.finished == (if outcome.Finished? then b.finished + [r] else b.finished)
    && n.failed == (if outcome.Failed? then b.failed + [r] else b.failed)
    && j.id in b.links && n.links.Keys == b.links.Keys
    && (forall id :: id in b.links && id != j.id ==> n.links[id] == b.links[id])
    && j.id in x.bodies && |x.bodies[j.id]| == j.total && j.offset <= j.total
    && RoundTurn(x.config, j, x.bodies[j.id], IsValidFilename(j.name) && j.id in x.present && x.packetization > 0,
                 outcome, r, b.links[j.id], n.links[j.id], b.files, n.files, b.refusals, n.refusals)
  }

  lemma CountedTurn(x: Given, b: Books, n: Books, i: nat, outcome: Outcome, r: Job, id: nat)
    requires Turn(x, b, n, i, outcome, r) && Counted(x, b, id)
    ensures Counted(x, n, id)
  {
    hide Sum, UploadTurn, Excused, RoundOf, SentBy, StagingAfter;
    var rest := b.queued[..i] + b.queued[i + 1..];
    SumCut(b.queued, i, JobWithId(id));
    SumPush(rest, r, JobWithId(id));
    SumPush(b.finished, r, JobWithId(id));
    SumPush(b.failed, r, JobWithId(id));
  }

  /** The request that was taken is not also among the others. */
  lemma OthersDiffer(x: Given, b: Books, i: nat)
    requires AllCounted(x, b) && i < |b.queued|
    ensures forall m :: 0 <= m < |b.queued| && m != i ==> b.queued[m].id != b.queued[i].id
    ensures forall k :: 0 <= k < |b.finished| ==> b.finished[k].id != b.queued[i].id
  {
    hide Sum;
    var id := b.queued[i].id;
    var rest := b.queued[..i] + b.queued[i + 1..];
    assert Counted(x, b, id);
    SumCut(b.queued, i, JobWithId(id));
    forall m | 0 <= m < |b.queued| && m != i
      ensures b.queued[m].id != id
    {
      var at := if m < i then m else m - 1;
      assert rest[at] == b.queued[m];
      if rest[at].id == id {
        SumAtLeast(rest, at, JobWithId(id));
      }
    }
    forall k | 0 <= k < |b.finished|
      ensures b.finished[k].id != id
    {
      if b.finished[k].id == id {
        SumAtLeast(b.finished, k, JobWithId(id));
      }
    }
  }

  /** A round appends to the wire what the ideal request sends in it. */
  lemma WireTurn(c: Config, j: Job, bodies: map<nat, Bytes>, earlier: Link, now: Link)
    requires Tracked(c, j, bodies) && OnWire(c, j, bodies[j.id], earlier)
    requires earlier.broken ==> now.broken
    requires !now.broken ==> now.wire == earlier.wire + SentBy(c, bodies[j.id], j)
    ensures OnWire(c, RoundOf(c, bodies[j.id], j), bodies[j.id], now)
  {
    hide RoundOf, RunOf, SentBy;
    StartKept(c, bodies[j.id], j);
    var r := RoundOf(c, bodies[j.id], j);
    assert StreamOf(c, bodies[j.id], Start(j), j.rounds + 1)
        == StreamOf(c, bodies[j.id], Start(j), j.rounds) + SentBy(c, bodies[j.id], RunOf(c, bodies[j.id], Start(j), j.rounds));
  }

  lemma KnownTurn(x: Given, b: Books, n: Books, j: Job, r: Job)
    requires Known(x, b, j) && b.links.Keys == n.links.Keys
    requires r.id == j.id && r.name == j.name && r.total == j.total && r.offset <= r.total
    ensures Known(x, n, r)
  {
    var s :| s in x.start && s.id == j.id && s.name == j.name;
    assert s in x.start && s.id == r.id && s.name == r.name;
  }

  lemma QueuedTurn(x: Given, b: Books, n: Books, i: nat, outcome: Outcome, r: Job)
    requires x.config.Valid() && Turn(x, b, n, i, outcome, r) && AllCounted(x, b) && QueuedSound(x, b)
    ensures QueuedSound(x, n)
  {
    hide Tracked, Known, OnWire, OwnName, UploadTurn, Excused, RoundOf, SentBy, StagingAfter, AllCounted, JobRank;
    var j := b.queued[i];
    OthersDiffer(x, b, i);
    forall m | 0 <= m < |n.queued|
      ensures JobSound(x, n, n.queued[m])
    {
      var y := n.queued[m];
      assert JobSound(x, b, j);
      if m < |b.queued| - 1 {
        var at := if m < i then m else m + 1;
        assert y == b.queued[at] && JobSound(x, b, b.queued[at]);
        TrackedShape(x.config, y, x.bodies);
        KnownTurn(x, b, n, y, y);
        KnownParts(x, n, y);
      } else {
        TrackedRound(x.config, j, x.bodies);
        TrackedShape(x.config, j, x.bodies);
        OwnNameKept(x, b, j);
        KnownTurn(x, b, n, j, r);
        KnownParts(x, n, r);
        WireTurn(x.config, j, x.bodies, b.links[j.id], n.links[j.id]);
      }
    }
  }

  lemma OwnNameKept(x: Given, b: Books, j: Job)
    requires JobSound(x, b, j)
    ensures OwnName(RoundOf(x.config, x.bodies[j.id], j))
  {
    hide Tracked, OnWire, StagingName, Charged, Accounted, GetRound;
    if j.op.PUT? {
      OwnStaging(x, b, j);
      PutStaging(x.config, j);
    }
  }

  lemma TrackedShape(c: Config, j: Job, bodies: map<nat, Bytes>)
    requires Tracked(c, j, bodies)
    ensures j.id in bodies && |bodies[j.id]| == j.total && j.offset <= j.total
  {
  }

  /** A complete ideal request has sent the whole answer. */
  lemma EndedAnswer(c: Config, j: Job, bodies: map<nat, Bytes>, link: Link)
    requires c.Valid() && Ended(c, j, bodies)
    requires OnWire(c, j, bodies[j.id], link)
    ensures !link.broken ==> link.wire == Answer(j.op, bodies[j.id])
  {
    hide StreamOf, Complete, StatusLine;
    var t := Ideal(c, j, bodies[j.id]);
    if j.op.GET? {
      CompleteGetDelivered(c, t);
    } else {
      CompletePutAnswered(c, t);
    }
  }

  lemma FinishedOne(x: Given, b: Books, n: Books, i: nat, r: Job)
    requires x.config.Valid() && Turn(x, b, n, i, Finished, r) && QueuedSound(x, b)
    ensures Ended(x.config, r, x.bodies) && Known(x, n, r)
    ensures !n.links[r.id].broken ==> n.links[r.id].wire == Answer(r.op, x.bodies[r.id])
  {
    hide Known, OnWire, UploadTurn, Excused, RoundOf, SentBy, StagingAfter, Answer, Ended, JobRank, Tracked;
    var j := b.queued[i];
    assert JobSound(x, b, j);
    TrackedRound(x.config, j, x.bodies);
    KnownTurn(x, b, n, j, r);
    WireTurn(x.config, j, x.bodies, b.links[j.id], n.links[j.id]);
    EndedAnswer(x.config, r, x.bodies, n.links[r.id]);
  }

  lemma FinishedTurn(x: Given, b: Books, n: Books, i: nat, outcome: Outcome, r: Job)
    requires x.config.Valid() && Turn(x, b, n, i, outcome, r)
    requires AllCounted(x, b) && QueuedSound(x, b) && FinishedSound(x, b)
    ensures FinishedSound(x, n)
  {
    hide Tracked, Known, UploadTurn, Excused, RoundOf, SentBy, StagingAfter, AllCounted, Ended, Answer, QueuedSound;
    OthersDiffer(x, b, i);
    forall k | 0 <= k < |n.finished|
      ensures Ended(x.config, n.finished[k], x.bodies) && Known(x, n, n.finished[k])
      ensures var j := n.finished[k];
              j.id in n.links && j.id in x.bodies
              && (!n.links[j.id].broken ==> n.links[j.id].wire == Answer(j.op, x.bodies[j.id]))
    {
      if k < |b.finished| {
        KnownParts(x, b, b.finished[k]);
        KnownTurn(x, b, n, b.finished[k], b.finished[k]);
      } else {
        FinishedOne(x, b, n, i, r);
        KnownParts(x, n, r);
      }
    }
  }

  lemma KnownParts(x: Given, b: Books, j: Job)
    requires Known(x, b, j)
    ensures IsValidFilename(j.name) && j.id in b.links && j.id in x.bodies
    ensures |x.bodies[j.id]| == j.total && j.offset <= j.total
  {
  }

  /** An iteration refuses at most operations on the staging file of the upload that then fails. */
  lemma RefusalsOfTurn(x: Given, b: Books, n: Books, i: nat, outcome: Outcome, r: Job)
    requires Turn(x, b, n, i, outcome, r) && QueuedSound(x, b)
    ensures n.refusals == b.refusals
            || (r.op.PUT? && outcome.Failed? && n.refusals == b.refusals + [StagingName(r.name, r.id)])
  {
    hide Uploading, Arrives, StagingName, Tracked, Known, OnWire, SentBy;
    var j := b.queued[i];
    assert JobSound(x, b, j);
    if j.op.PUT? {
      OwnStaging(x, b, j);
    }
  }

  lemma RefusalsTurn(x: Given, b: Books, n: Books, i: nat, outcome: Outcome, r: Job)
    requires Turn(x, b, n, i, outcome, r) && QueuedSound(x, b) && RefusalsSound(b)
    ensures RefusalsSound(n)
  {
    hide StagingName, QueuedSound, RoundTurn;
    RefusalsOfTurn(x, b, n, i, outcome, r);
    forall name | name in n.refusals
      ensures exists k :: 0 <= k < |n.failed| && n.failed[k].op.PUT? && name == StagingName(n.failed[k].name, n.failed[k].id)
    {
      if name in b.refusals {
        var k :| 0 <= k < |b.failed| && b.failed[k].op.PUT? && name == StagingName(b.failed[k].name, b.failed[k].id);
        assert n.failed[k] == b.failed[k];
      } else {
        assert n.failed[|b.failed|] == r;
      }
    }
  }

  /** The upload that fails in an iteration has its own excuse. */
  lemma FailedOne(x: Given, b: Books, n: Books, i: nat, r: Job)
    requires Turn(x, b, n, i, Failed, r) && QueuedSound(x, b)
    requires NoClash(x) ==> UploadsReady(x, b)
    ensures Excused(x, n, r)
  {
    hide Uploading, Arrives, StagingName, Tracked, OnWire, SentBy;
    var j := b.queued[i];
    assert JobSound(x, b, j);
    if j.op.PUT? {
      OwnStaging(x, b, j);
    }
  }

  lemma FailedTurn(x: Given, b: Books, n: Books, i: nat, outcome: Outcome, r: Job)
    requires Turn(x, b, n, i, outcome, r) && QueuedSound(x, b) && FailedSound(x, b)
    requires NoClash(x) ==> UploadsReady(x, b)
    ensures FailedSound(x, n)
  {
    hide Tracked, Known, OnWire, StagingName, QueuedSound, NoClash, UploadsReady, UploadTurn, RoundOf, SentBy, StagingAfter;
    RefusalsOfTurn(x, b, n, i, outcome, r);
    forall k | 0 <= k < |n.failed|
      ensures Excused(x, n, n.failed[k])
    {
      if k < |b.failed| {
        assert n.failed[k] == b.failed[k];
        assert Excused(x, b, b.failed[k]);
      } else {
        FailedOne(x, b, n, i, r);
      }
    }
  }

  /** No operation of an upload that is queued or finished was refused. */
  lemma RefusedOnlyWhenFailed(x: Given, b: Books, j: Job)
    requires Sound(x, b) && (j in b.queued || j in b.finished)
    ensures !Refused(b, j)
  {
    hide QueuedSound, FinishedSound, FailedSound, NoClash, UploadsReady, Published, StagingName, Sum;
    if Refused(b, j) {
      var k :| 0 <= k < |b.failed| && b.failed[k].op.PUT?
               && StagingName(j.name, j.id) == StagingName(b.failed[k].name, b.failed[k].id);
      Storage.StagingInjective(j.name, j.id, b.failed[k].name, b.failed[k].id);
      SumAtLeast(b.failed, k, JobWithId(j.id));
      assert Counted(x, b, j.id);
      OneOf(if j in b.queued then b.queued else b.finished, j);
    }
  }

  lemma OneOf(items: seq<Job>, j: Job)
    requires j in items
    ensures Copies(items, j.id) > 0
  {
    hide Sum;
    var i :| 0 <= i < |items| && items[i] == j;
    SumAtLeast(items, i, JobWithId(j.id));
  }

  // ----- Files -----

  /** A name outside `gone` is not affected. */
  lemma Kept(now: map<string, Bytes>, files: map<string, Bytes>, gone: set<string>, name: string)
    requires now - gone == files - gone && name !in gone
    ensures name in now <==> name in files
    ensures name in now ==> now[name] == files[name]
  {
    if name in now {
      assert (now - gone)[name] == now[name];
      assert name in files - gone;
    }
    if name in files {
      assert (files - gone)[name] == files[name];
      assert name in now - gone;
    }
  }

  /** The staging file of the request that is served is never a file that another request relies on. */
  lemma StagingApart(x: Given, b: Books, j: Job, o: Job)
    requires NoClash(x) && Known(x, b, j) && Known(x, b, o)
    ensures o.name != StagingName(j.name, j.id)
    ensures o.id != j.id ==> StagingName(o.name, o.id) != StagingName(j.name, j.id)
  {
    hide StagingName;
    var s :| s in x.start && s.id == j.id && s.name == j.name;
    var t :| t in x.start && t.id == o.id && t.name == o.name;
    if StagingName(o.name, o.id) == StagingName(j.name, j.id) {
      Storage.StagingInjective(o.name, o.id, j.name, j.id);
    }
  }

  /** A round works under the request's own staging name. */
  lemma OwnStaging(x: Given, b: Books, j: Job)
    requires JobSound(x, b, j) && j.op.PUT?
    ensures StagingAfter(j) == StagingName(j.name, j.id)
  {
  }

  lemma OtherUploadReady(x: Given, b: Books, j: Job, o: Job, now: map<string, Bytes>, link: Link)
    requires NoClash(x) && Known(x, b, j) && Known(x, b, o) && o.id != j.id && OwnName(o)
    requires var gone := {StagingName(j.name, j.id), j.name}; now - gone == b.files - gone
    requires Ready(o, x.bodies[o.id], o.id in x.intact, b.files, link)
    ensures Ready(o, x.bodies[o.id], o.id in x.intact, now, link)
  {
    hide StagingName, Ahead;
    if o.op.PUT? && Begun(o) {
      StagingApart(x, b, j, o);
      StagingApart(x, b, o, j);
      Kept(now, b.files, {StagingName(j.name, j.id), j.name}, o.staging);
    }
  }

  lemma SameReady(x: Given, b: Books, n: Books, i: nat, outcome: Outcome, r: Job)
    requires NoClash(x) && Turn(x, b, n, i, outcome, r) && outcome.PutBack?
    requires QueuedSound(x, b) && UploadsReady(x, b)
    ensures r.id == b.queued[i].id
    ensures Ready(r, x.bodies[r.id], r.id in x.intact, n.files, n.links[r.id])
  {
    hide Uploading, Arrives, StagingName, Tracked, OnWire, SentBy, Excused;
    var j := b.queued[i];
    assert JobSound(x, b, j) && Ready(j, x.bodies[j.id], j.id in x.intact, b.files, b.links[j.id]);
  }

  lemma PutStaging(c: Config, j: Job)
    requires IsValidFilename(j.name) && j.offset <= j.total
    ensures PutRound(c, j).staging == StagingAfter(j) && PutRound(c, j).name == j.name
  {
    hide StagingName, Wrap, IsValidFilename;
  }

  /** Outside the request's staging name and its final name a turn changes no file. */
  lemma FilesTurn(x: Given, b: Books, n: Books, i: nat, outcome: Outcome, r: Job)
    requires Turn(x, b, n, i, outcome, r) && QueuedSound(x, b) && UploadsReady(x, b)
    ensures var j := b.queued[i]; var staging := StagingName(j.name, j.id);
            && n.files - {staging, j.name} == b.files - {staging, j.name}
            && (!(j.op.PUT? && outcome.Finished?) ==> n.files - {staging} == b.files - {staging})
            && (j.op.PUT? && outcome.Finished? ==> j.name in n.files && n.files[j.name] == x.bodies[j.id])
  {
    hide Uploading, StagingName, Tracked, OnWire, SentBy, Excused, RoundOf;
    var j := b.queued[i];
    assert JobSound(x, b, j) && Ready(j, x.bodies[j.id], j.id in x.intact, b.files, b.links[j.id]);
    if j.op.PUT? {
      OwnStaging(x, b, j);
    }
  }

  /** A request that is queued after an iteration was queued before, or is the one that was put back. */
  lemma QueuedBefore(x: Given, b: Books, n: Books, i: nat, outcome: Outcome, r: Job, m: nat) returns (at: nat)
    requires Turn(x, b, n, i, outcome, r) && m < |n.queued|
    ensures at < |b.queued|
    ensures (at != i && n.queued[m] == b.queued[at]) || (outcome.PutBack? && n.queued[m] == r)
  {
    hide RoundTurn;
    at := if m < i then m else if m < |b.queued| - 1 then m + 1 else i;
  }

  lemma LinksTurn(x: Given, b: Books, n: Books, i: nat, outcome: Outcome, r: Job)
    requires Turn(x, b, n, i, outcome, r)
    ensures i < |b.queued| && n.links.Keys == b.links.Keys && r.id == b.queued[i].id
    ensures forall id :: id in b.links && id != b.queued[i].id ==> n.links[id] == b.links[id]
  {
  }

  lemma UploadsTurn(x: Given, b: Books, n: Books, i: nat, outcome: Outcome, r: Job)
    requires NoClash(x) && Turn(x, b, n, i, outcome, r)
    requires AllCounted(x, b) && QueuedSound(x, b) && UploadsReady(x, b)
    ensures UploadsReady(x, n)
  {
    hide Turn, Tracked, OnWire, AllCounted, NoClash, Ready;
    LinksTurn(x, b, n, i, outcome, r);
    var j := b.queued[i];
    OthersDiffer(x, b, i);
    FilesTurn(x, b, n, i, outcome, r);
    assert JobSound(x, b, j);
    forall m | 0 <= m < |n.queued|
      ensures var y := n.queued[m];
              y.id in x.bodies && y.id in n.links && Ready(y, x.bodies[y.id], y.id in x.intact, n.files, n.links[y.id])
    {
      var y := n.queued[m];
      var at := QueuedBefore(x, b, n, i, outcome, r, m);
      if at != i && y == b.queued[at] {
        assert JobSound(x, b, b.queued[at]);
        OtherUploadReady(x, b, j, y, n.files, b.links[y.id]);
      } else {
        SameReady(x, b, n, i, outcome, r);
      }
    }
  }

  lemma PublishedTurn(x: Given, b: Books, n: Books, i: nat, outcome: Outcome, r: Job)
    requires NoClash(x) && Turn(x, b, n, i, outcome, r)
    requires QueuedSound(x, b) && FinishedSound(x, b) && UploadsReady(x, b) && Published(x, b)
    ensures Published(x, n)
  {
    hide Tracked, OnWire, UploadTurn, Excused, RoundOf, SentBy, StagingAfter, NoClash, Known, Ended, Answer, StagingName;
    var j := b.queued[i];
    assert JobSound(x, b, j);
    FilesTurn(x, b, n, i, outcome, r);
    forall k | 0 <= k < |n.finished| && n.finished[k].op.PUT? && LastTo(n.finished, k)
      ensures var y := n.finished[k];
              y.id in x.bodies && y.name in n.files && n.files[y.name] == x.bodies[y.id]
    {
      if k < |b.finished| {
        var y := b.finished[k];
        assert Known(x, b, y);
        assert LastTo(b.finished, k) by {
          assert forall m :: 0 <= m < |b.finished| ==> b.finished[m] == n.finished[m];
        }
        StagingApart(x, b, j, y);
        if j.op.PUT? && outcome.Finished? {
          assert n.finished[|b.finished|] == r;
          Kept(n.files, b.files, {StagingName(j.name, j.id), j.name}, y.name);
        } else {
          Kept(n.files, b.files, {StagingName(j.name, j.id)}, y.name);
        }
      }
    }
  }

  /** Every iteration keeps the books sound, whichever request it took and however it went. */
  lemma TurnKeeps(x: Given, b: Books, n: Books, i: nat, outcome: Outcome, r: Job)
    requires x.config.Valid() && Turn(x, b, n, i, outcome, r) && Sound(x, b)
    ensures Sound(x, n)
  {
    hide Turn, Counted, QueuedSound, FinishedSound, FailedSound, RefusalsSound, NoClash, UploadsReady, Published;
    forall id
      ensures Counted(x, n, id)
    {
      assert Counted(x, b, id);
      CountedTurn(x, b, n, i, outcome, r, id);
    }
    QueuedTurn(x, b, n, i, outcome, r);
    FinishedTurn(x, b, n, i, outcome, r);
    FailedTurn(x, b, n, i, outcome, r);
    RefusalsTurn(x, b, n, i, outcome, r);
    if NoClash(x) {
      UploadsTurn(x, b, n, i, outcome, r);
      PublishedTurn(x, b, n, i, outcome, r);
    }
  }

  lemma FailedOfStart(x: Given, b: Books) returns (s: Job)
    requires AllCounted(x, b) && b.failed != []
    ensures s in x.start && s.id == b.failed[0].id
  {
    var id := b.failed[0].id;
    SumAtLeast(b.failed, 0, JobWithId(id));
    assert Counted(x, b, id);
    var i := Heavy(x.start, JobWithId(id));
    s := x.start[i];
  }

  lemma NoExcuse(x: Given, b: Books, j: Job)
    requires NoClash(x) && b.refusals == [] && x.packetization > 0
    requires j.id in x.present && j.id in x.intact
    requires forall id :: id in b.links ==> !b.links[id].broken
    ensures !Excused(x, b, j)
  {
  }

  /** With files in place, intact uploads, a working disk and no broken connection nothing fails. */
  lemma NothingFails(x: Given, b: Books)
    requires Sound(x, b) && NoClash(x) && b.refusals == [] && x.packetization > 0
    requires forall s :: s in x.start ==> s.id in x.present && s.id in x.intact
    requires forall id :: id in b.links ==> !b.links[id].broken
    ensures b.failed == []
    ensures b.queued == [] ==> forall id :: Copies(b.finished, id) == Copies(x.start, id)
  {
    hide QueuedSound, FinishedSound, UploadsReady, Published, NoClash, Excused;
    if b.failed != [] {
      var s := FailedOfStart(x, b);
      NoExcuse(x, b, b.failed[0]);
    }
    forall id
      ensures b.queued == [] ==> Copies(b.finished, id) == Copies(x.start, id)
    {
      assert Counted(x, b, id);
    }
  }
}
