/** The rounds of the worker objects, as file operations of a worker in a history of the whole server. */
module Operations {
  import opened Common
  import opened Rounds
  import opened Serving
  import opened Uploads
  import opened Tasks
  import opened Worker
  import opened Storage
  import opened Directory

  /** Where the operations of a round leave the upload. */
  predicate LeftAt(outcome: Outcome, r: Job, phase: Phase) {
    match outcome
    case PutBack => phase == Staging(r.offset)
    case Finished => phase == Committed
    case Failed => phase == Dropped
  }

  /** The events are file operations of worker `w` alone. */
  predicate OwnFiles(events: seq<Event>, w: nat) {
    forall i :: 0 <= i < |events| ==> events[i].File? && events[i].w == w
  }

  /** Worker `w` starts a round of an upload whose files are as they should be. */
  predicate AtRound(puts: Puts, x: World, w: nat) {
    && Protocol.Serving(x.server, w)
    && var t := x.server.workers[w].work;
    && IsPut(t) && BetweenRounds(puts, x.disk, t)
    && (t.job.rounds == 0 ==> t.job.offset == 0)
    && (t.job.rounds > 0 ==>
          && Staged(puts, t.job.id) in x.disk.files
          && x.disk.files[Staged(puts, t.job.id)] == t.body[..t.job.offset])
  }

  /** The staging file in place: created if this is the first round. */
  lemma Opened(c: Config, puts: Puts, x: World, w: nat) returns (events: seq<Event>, n: World)
    requires AtRound(puts, x, w)
    ensures OwnFiles(events, w) && IsHistory(c, puts, x, events) && Ending(c, puts, x, events) == n
    ensures var t := x.server.workers[w].work;
            && t.job.offset <= |t.body|
            && n == x.(disk := x.disk.(files := x.disk.files[Staged(puts, t.job.id) := t.body[..t.job.offset]],
                                       phase := x.disk.phase[t.job.id := Storage.Staging(t.job.offset)]))
  {
    hide StagingName, Served;
    var t := x.server.workers[w].work;
    assert t.body[..0] == [];
    if t.job.rounds == 0 {
      var e := File(w, Create(t.job.id));
      n := Happen(c, puts, x, e);
      OneEvent(c, puts, x, e);
      events := [e];
    } else {
      n := x;
      events := [];
    }
  }

  /** The staging file written up to a place within the round. */
  lemma Written(c: Config, puts: Puts, x: World, w: nat, to: nat) returns (events: seq<Event>, n: World)
    requires AtRound(puts, x, w)
    requires var t := x.server.workers[w].work; t.job.offset <= to <= Served(c, t).job.offset
    ensures OwnFiles(events, w) && IsHistory(c, puts, x, events) && Ending(c, puts, x, events) == n
    ensures var t := x.server.workers[w].work;
            && to <= |t.body|
            && n == x.(disk := x.disk.(files := x.disk.files[Staged(puts, t.job.id) := t.body[..to]],
                                       phase := x.disk.phase[t.job.id := Storage.Staging(to)]))
  {
    hide StagingName, WriteAt, RoundOf, SentBy;
    var t := x.server.workers[w].work;
    var body, o := t.body, t.job.offset;
    var first, mid := Opened(c, puts, x, w);
    var e := File(w, Append(t.job.id, to - o));
    assert May(c, puts, mid, e);
    WriteAtEnd(body[..o], body[o..to]);
    assert body[..o] + body[o..to] == body[..to];
    n := Happen(c, puts, mid, e);
    HistoryThen(c, puts, x, first, e);
    events := first + [e];
  }

  /** Two directories that agree outside a name and on it are the same. */
  lemma SameFiles(now: map<string, Bytes>, files: map<string, Bytes>, name: string)
    requires now - {name} == files - {name}
    ensures name in now ==> now == files[name := now[name]]
    ensures name !in now ==> now == files - {name}
  {
    forall k | k in now && k != name
      ensures k in files && files[k] == now[k]
    {
      assert k in now - {name};
    }
    forall k | k in files && k != name
      ensures k in now
    {
      assert k in files - {name};
    }
  }

  /**
   * A round of the worker object is a history of the whole server in which only that worker's file
   * operations happen: create in the first round, append up to the end of the round, and with the
   * last byte commit. A failing round drops the staging file, or is refused the rename with the
   * last byte.
   */
  lemma RoundIsHistory(c: Config, puts: Puts, x: World, w: nat, outcome: Outcome, r: Job, now: map<string, Bytes>,
                       refusals: seq<string>, refusalsNow: seq<string>, chunks: seq<Bytes>, later: seq<Bytes>)
    returns (events: seq<Event>)
    requires AtRound(puts, x, w)
    requires var t := x.server.workers[w].work;
             && IsValidFilename(t.job.name)
             && (Begun(t.job) ==> t.job.staging == StagingName(t.job.name, t.job.id))
             && Uploading(t.job, t.body, x.disk.files, chunks)
             && UploadTurn(c, t.job, t.body, StagingName(t.job.name, t.job.id), outcome, r, x.disk.files, now,
                           refusals, refusalsNow, chunks, later)
             && (!outcome.Failed? ==> r == PutRound(c, t.job) && outcome == OutcomeOf(r))
    ensures OwnFiles(events, w) && IsHistory(c, puts, x, events)
    ensures var n, id := Ending(c, puts, x, events), x.server.workers[w].work.job.id;
            n.server == x.server && n.disk.files == now && id in n.disk.phase && LeftAt(outcome, r, n.disk.phase[id])
  {
    hide StagingName, IsValidFilename, Ahead, WriteAt, Agree, PutRound, SentBy, AtRound, IsHistory, Ending;
    AtRoundParts(puts, x, w);
    var t := x.server.workers[w].work;
    var body, staging, id := t.body, StagingName(t.job.name, t.job.id), t.job.id;
    assert Served(c, t).job == PutRound(c, t.job);
    assert body[..|body|] == body;
    if outcome.Failed? && staging !in now {
      SameFiles(now, x.disk.files, staging);
      var e := File(w, Drop(id));
      OneEvent(c, puts, x, e);
      events := [e];
    } else if outcome.PutBack? {
      SameFiles(now, x.disk.files, staging);
      PutBackStaged(c, t.job, body, r, now, staging, later);
      var n;
      events, n := Written(c, puts, x, w, r.offset);
    } else {
      StagingNonEmpty(t.job.name, id);
      var filled, n := Written(c, puts, x, w, |body|);
      var e := File(w, if outcome.Failed? then CommitFails(id) else Commit(id));
      assert May(c, puts, n, e);
      if outcome.Failed? {
        SameFiles(now, x.disk.files, staging);
      } else {
        assert x.disk.files[staging := body] - {staging} == x.disk.files - {staging};
      }
      HistoryThen(c, puts, x, filled, e);
      events := filled + [e];
    }
  }

  lemma AtRoundParts(puts: Puts, x: World, w: nat)
    requires AtRound(puts, x, w)
    ensures Protocol.Serving(x.server, w)
    ensures var t := x.server.workers[w].work;
            && IsPut(t) && t.job.id in puts && puts[t.job.id] == Put(t.job.name, t.body)
            && t.job.id in x.disk.phase && |t.body| == t.job.total && t.job.offset <= t.job.total
            && (x.disk.phase[t.job.id].Queued? || x.disk.phase[t.job.id].Staging?)
  {
  }

  /** After a round that is put back the staging file holds what was received. */
  lemma PutBackStaged(c: Config, j: Job, body: Bytes, r: Job, now: map<string, Bytes>, staging: string, later: seq<Bytes>)
    requires j.offset <= j.total && r == PutRound(c, j) && Uploading(r, body, now, later)
    requires IsValidFilename(j.name) && staging == StagingName(j.name, j.id) && (Begun(j) ==> j.staging == staging)
    ensures staging in now && now[staging] == body[..r.offset] && j.offset <= r.offset
  {
    hide StagingName, Ahead, Agree, Wrap;
  }

  lemma StagingNonEmpty(name: string, id: nat)
    ensures StagingName(name, id) != ""
  {
  }
}
