/** The worker loop of main.cpp over the objects: budget, serve, account, put back or finish. */
module Worker {
  import opened Common
  import opened Lines
  import opened Rounds
  import opened Net
  import opened Scheduling
  import opened Delivery
  import opened Serving
  import opened Uploads
  import opened Queues
  import opened Tasks
  import Paths

  datatype Outcome = Failed | PutBack | Finished

  /** What the worker does with a request after a round that left it as `j`. */
  function OutcomeOf(j: Job): Outcome {
    if j.Remaining() > 0 then PutBack else Finished
  }

  /**
   * `Scheduler::next`: takes the request the policy chooses and draws its budget, or reports
   * that all work is done.
   */
  method TakeNext(s: Scheduler, queue: RequestQueue) returns (r: Option<Request>, budget: nat)
    requires queue.State().MayReturn()
    modifies queue`items, queue`inflight
    ensures r.None? <==> old(queue.items) == []
    ensures r.None? ==> queue.State() == old(queue.State()) && queue.closed && queue.inflight == 0
    ensures r.Some? ==>
              var i := if s.policy.SJF? then BestIndex(old(queue.items)) else 0;
              && fresh(r.value)
              && r.value.Value() == Charged(s.Setting(), old(queue.items)[i])
              && budget == Budget(s.Setting(), old(queue.items)[i])
              && queue.State() == old(queue.State()).PoppedAt(i)
    ensures r.Some? && s.policy.SJF? ==>
              forall x :: x in old(queue.items) ==>
                r.value.total < x.total || (r.value.total == x.total && r.value.arrival <= x.arrival)
  {
    var job: Option<Job>;
    match s.policy {
      case SJF =>
        job := queue.WaitPopBest();
      case _ =>
        job := queue.WaitPop();
    }
    if job.None? {
      return None, 0;
    }
    var request := new Request(job.value);
    budget := s.GetBudget(request);
    r := Some(request);
  }

  method Forfeit(r: Request, bytes: nat)
    modifies r`forfeited
    ensures r.Value() == old(r.Value()).(forfeited := old(r.forfeited) + bytes)
  {
    r.forfeited := r.forfeited + bytes;
  }

  lemma ChargedKeeps(c: Config, j: Job)
    ensures Charged(c, j).(deficit := j.deficit) == j
  {
  }

  /** The GET branch of the loop, from the drawn budget to the requeue decision. */
  method ServeGetRound(s: Scheduler, r: Request, budget: nat, ghost before: Job,
                       conn: Connection, file: Option<Bytes>, packetization: int)
    returns (outcome: Outcome)
    requires r.Value() == Charged(s.Setting(), before) && budget == Budget(s.Setting(), before)
    requires file.Some? ==> |file.value| == before.total && before.offset <= before.total
    modifies r, conn`wire, conn`sends, conn`broken, conn`stalls
    ensures outcome.Failed? ==>
              !IsValidFilename(before.name) || file.None? || packetization <= 0 || conn.broken
    ensures old(conn.broken) ==> conn.broken
    ensures !outcome.Failed? ==>
              && file.Some?
              && r.Value() == GetRound(s.Setting(), file.value, before)
              && outcome == OutcomeOf(r.Value())
              && (!conn.broken ==> conn.wire == old(conn.wire) + GetBytes(s.Setting(), file.value, before))
  {
    hide Selected, Overruns, StatusLine, IsValidFilename, RoundSends, Charged, Accounted, Budget, Boundary, GetRound,
         Paths.Contained, GetBytes;
    ChargedKeeps(s.Setting(), before);
    var ok, processed := ServeGet(r, conn, file, budget, s.policy == RR, packetization);
    if !ok {
      return Failed;
    }
    AccountedGet(s.Setting(), file.value, before, r.Value(), processed);
    BytesOfRound(s.Setting(), file.value, before);
    s.Account(r, processed);
    var requeue := s.ShouldRequeue(r);
    if requeue && s.policy == RR && processed < budget {
      Forfeit(r, budget - processed);
    }
    return if requeue then PutBack else Finished;
  }

  lemma BytesOfRound(c: Config, f: Bytes, j: Job)
    requires |f| == j.total && j.offset <= j.total
    ensures var n := Selected(f, j.offset, Budget(c, j), c.policy.RR?);
            GetBytes(c, f, j) == (if j.responseSent then [] else StatusLine(j.total)) + f[j.offset..j.offset + n]
  {
    hide Selected, StatusLine, Budget;
  }

  /** Accounting, and forfeiting what is left of an RR budget, completes the round. */
  lemma AccountedGet(c: Config, f: Bytes, before: Job, served: Job, processed: nat)
    requires |f| == before.total && before.offset <= before.total
    requires processed == Selected(f, before.offset, Budget(c, before), c.policy.RR?)
    requires served == Charged(c, before).(
               responseSent := true,
               a14 := before.a14 + if Overruns(f, before.offset, Budget(c, before), c.policy.RR?) then 1 else 0)
    ensures var done, budget := Accounted(c, served, processed), Budget(c, before);
            GetRound(c, f, before)
            == if c.policy.RR? && done.Remaining() > 0 && processed < budget
               then done.(forfeited := done.forfeited + (budget - processed)) else done
  {
    hide Selected, Overruns, Budget, Accounted;
  }

  /** One of the two continues the other. */
  predicate Agree(a: Bytes, b: Bytes) {
    a <= b || b <= a
  }

  /** Some round of the upload has been served. */
  predicate Begun(j: Job) {
    j.rounds > 0 || j.offset > 0
  }

  /**
   * The upload is where `j.offset` says: staged so far, and what is still ahead is the rest of
   * the body, or as much of it as the client sends before it stops.
   */
  ghost predicate Uploading(j: Job, body: Bytes, files: map<string, Bytes>, chunks: seq<Bytes>) {
    && |body| == j.total && j.offset <= j.total
    && (Begun(j) ==> j.staging in files && files[j.staging] == body[..j.offset])
    && Agree(body[j.offset..], Ahead(j.pending, j.pendingOffset, chunks))
    && j.pendingOffset == Min(j.offset, |j.pending|)
  }

  /** The client sends the rest of the body in full. */
  predicate Arrives(j: Job, body: Bytes, chunks: seq<Bytes>) {
    j.offset <= |body| && body[j.offset..] <= Ahead(j.pending, j.pendingOffset, chunks)
  }

  /** The staging name a PUT round works under; `before` is the request as it was taken. */
  function StagingAfter(before: Job): string {
    if IsValidFilename(before.name) && before.offset == 0 then StagingName(before.name, before.id) else before.staging
  }

  /** Receives the bytes of a round and accounts for them. */
  method ReceiveRound(s: Scheduler, r: Request, budget: nat, ghost before: Job,
                      conn: Connection, store: FileStore, ghost body: Bytes)
    returns (ok: bool, ghost why: Option<Refusal>)
    requires r.Value() == Charged(s.Setting(), before) && budget == Budget(s.Setting(), before)
    requires before.offset <= before.total
    modifies r, store, conn`incoming, conn`wire, conn`sends, conn`broken, conn`stalls
    ensures store.files - {r.staging} == old(store.files) - {r.staging}
    ensures r.staging == StagingAfter(before)
    ensures ok <==> why.None?
    ensures store.refusals == Noted(old(store.refusals), r.staging, why)
    ensures old(conn.broken) ==> conn.broken
    ensures ok ==> r.Value() == PutRound(s.Setting(), before) && r.staging in store.files
    ensures !conn.broken ==>
              conn.wire == old(conn.wire) + (if before.offset == 0 then StatusLine(0) else [])
                           + if ok then [] else RefusalLine(why.value)
    ensures Uploading(before, body, old(store.files), old(conn.incoming)) ==>
              && (!ok ==> Excuse(why.value, before, body, old(conn.incoming)))
              && (ok ==>
                    && Uploading(r.Value(), body, store.files, conn.incoming)
                    && (Arrives(before, body, old(conn.incoming)) ==> Arrives(r.Value(), body, conn.incoming))
                    && store.files[r.staging] == body[..r.offset])
  {
    hide StagingName, IsValidFilename, StatusLine, Flatten, Ahead, Charged, Accounted, Budget, Uploading, Arrives,
         Cause, Excuse, RefusalLine, Noted;
    ChargedKeeps(s.Setting(), before);
    BudgetWithin(s.Setting(), before);
    if r.offset == 0 {
      var _ := conn.SendAll(StatusLine(0));
    }
    ghost var good := Uploading(before, body, store.files, conn.incoming);
    var processed;
    if good {
      UploadingParts(before, body, store.files, conn.incoming);
    }
    ok, processed, why := ServePut(r, store, conn, budget);
    if !ok && good {
      RefusalExcused(before, s.Setting(), why.value, StagingAfter(before) in old(store.files), budget,
                     conn.aborts, body, old(store.files), old(conn.incoming));
    }
    if ok {
      ghost var served := r.Value();
      s.Account(r, processed);
      AccountedPut(s.Setting(), before, served, processed);
      if good {
        UploadAdvances(before, r.Value(), processed, body, old(store.files), store.files, old(conn.incoming), conn.incoming);
      }
    }
  }

  /** An upload may be given up for a bad name, for the disk, or for a client that stops early. */
  predicate Excuse(why: Refusal, j: Job, body: Bytes, chunks: seq<Bytes>) {
    !IsValidFilename(j.name) || why.OfDisk() || !Arrives(j, body, chunks)
  }

  lemma UploadingParts(j: Job, body: Bytes, files: map<string, Bytes>, chunks: seq<Bytes>)
    requires Uploading(j, body, files, chunks)
    ensures j.offset > 0 ==> j.staging in files && |files[j.staging]| == j.offset
    ensures j.pendingOffset == Min(j.offset, |j.pending|)
    ensures j.total == |body| && body[..|body|] == body
  {
  }

  lemma RefusalExcused(j: Job, c: Config, why: Refusal, staged: bool, size: nat, aborts: bool,
                       body: Bytes, files: map<string, Bytes>, chunks: seq<Bytes>)
    requires Uploading(j, body, files, chunks) && size <= j.total - j.offset
    requires staged == (StagingAfter(j) in files)
    requires Cause(why, Charged(c, j), staged, |Ahead(j.pending, j.pendingOffset, chunks)|,
                   Min(size, j.total - j.offset), aborts)
    ensures Excuse(why, j, body, chunks)
  {
    hide Ahead, StagingName, IsValidFilename;
  }

  /** Appending the bytes of a round keeps the upload where its offset says. */
  lemma UploadAdvances(j: Job, r: Job, n: nat, body: Bytes, files: map<string, Bytes>, now: map<string, Bytes>,
                       chunks: seq<Bytes>, later: seq<Bytes>)
    requires Uploading(j, body, files, chunks) && j.offset + n <= j.total
    requires r.total == j.total && r.pending == j.pending && r.offset == j.offset + n
    requires r.pendingOffset == Min(r.offset, |r.pending|)
    requires var ahead := Ahead(j.pending, j.pendingOffset, chunks);
             n <= |ahead| && Ahead(r.pending, r.pendingOffset, later) == ahead[n..]
    requires r.staging in now && (j.offset > 0 ==> r.staging == j.staging)
    requires now[r.staging] == (if j.offset == 0 then [] else files[j.staging])
                               + Ahead(j.pending, j.pendingOffset, chunks)[..n]
    ensures Uploading(r, body, now, later) && now[r.staging] == body[..r.offset]
    ensures Arrives(j, body, chunks) ==> Arrives(r, body, later)
  {
    hide Ahead;
    StagedPrefix(body, j.offset, n, Ahead(j.pending, j.pendingOffset, chunks));
    assert body[..0] == [];
  }

  lemma AccountedPut(c: Config, before: Job, served: Job, processed: nat)
    requires before.offset <= before.total
    requires processed == Budget(c, before)
    requires served == Charged(c, before).(
               staging := if before.offset == 0 then StagingName(before.name, before.id) else before.staging,
               pendingOffset := before.pendingOffset + Min(processed, Left(before)))
    ensures Accounted(c, served, processed) == PutRound(c, before)
    ensures Accounted(c, served, processed).offset == before.offset + processed
    ensures before.pendingOffset == Min(before.offset, |before.pending|) ==>
              served.pendingOffset == Min(before.offset + processed, |before.pending|)
  {
    hide StagingName, Wrap;
  }

  /**
   * The PUT branch of the loop. However the stream is split, a round that is put back leaves
   * exactly the first `offset` bytes of the body staged; the finishing round moves the whole body
   * to its name; a failing round changes no file but the staging file, which it removes unless
   * only the final rename was refused.
   */
  method ServePutRound(s: Scheduler, r: Request, budget: nat, ghost before: Job,
                       conn: Connection, store: FileStore, ghost body: Bytes)
    returns (outcome: Outcome, ghost why: Option<Refusal>)
    requires r.Value() == Charged(s.Setting(), before) && budget == Budget(s.Setting(), before)
    requires before.offset <= before.total
    modifies r, store, conn`incoming, conn`wire, conn`sends, conn`broken, conn`stalls
    ensures !outcome.Failed? ==>
              && r.Value() == PutRound(s.Setting(), before)
              && outcome == OutcomeOf(r.Value())
              && (!conn.broken ==> conn.wire == old(conn.wire) + PutBytes(s.Setting(), before))
    ensures outcome.Failed? <==> why.Some?
    ensures outcome.Failed? && !conn.broken ==>
              conn.wire == old(conn.wire) + (if before.offset == 0 then StatusLine(0) else []) + RefusalLine(why.value)
    ensures store.refusals == Noted(old(store.refusals), r.staging, why)
    ensures store.files - {r.staging, r.name} == old(store.files) - {r.staging, r.name}
    ensures r.staging == StagingAfter(before)
    ensures old(conn.broken) ==> conn.broken
    ensures !outcome.Finished? ==> store.files - {r.staging} == old(store.files) - {r.staging}
    ensures outcome.Failed? && r.staging != "" && r.staging in store.files ==>
              why.value.CannotCommit? && r.Value() == PutRound(s.Setting(), before) && r.offset == r.total
    ensures Uploading(before, body, old(store.files), old(conn.incoming)) ==>
              && (outcome.Failed? ==>
                    && Excuse(why.value, before, body, old(conn.incoming))
                    && (r.staging != "" && r.staging in store.files ==> store.files[r.staging] == body))
              && (outcome.PutBack? ==>
                    && Uploading(r.Value(), body, store.files, conn.incoming)
                    && (Arrives(before, body, old(conn.incoming)) ==> Arrives(r.Value(), body, conn.incoming)))
              && (outcome.Finished? ==>
                    && store.files == (old(store.files) - {r.staging})[r.name := body]
                    && r.pendingOffset == Min(|body|, |r.pending|))
  {
    hide StagingName, IsValidFilename, StatusLine, Flatten, Ahead, Charged, Budget, PutRound, Arrives, Uploading, ErrorLine,
         RefusalLine;
    ChargedKeeps(s.Setting(), before);
    var ok;
    ok, why := ReceiveRound(s, r, budget, before, conn, store, body);
    if !ok {
      if r.staging != "" {
        store.Remove(r.staging);
      }
      DropTwo(store.files, old(store.files), r.staging, r.name);
      return Failed, why;
    }
    DropTwo(store.files, old(store.files), r.staging, r.name);
    ghost var good := Uploading(r.Value(), body, store.files, conn.incoming);
    if good {
      UploadingParts(r.Value(), body, store.files, conn.incoming);
    }
    outcome := EndRound(s, r, store, conn);
    why := if outcome.Failed? then Some(CannotCommit) else None;
  }

  /** Puts an unfinished upload back, and publishes a complete one. */
  method EndRound(s: Scheduler, r: Request, store: FileStore, conn: Connection) returns (outcome: Outcome)
    requires r.staging in store.files
    modifies store, conn`wire, conn`sends, conn`broken, conn`stalls
    ensures !outcome.Failed? ==> outcome == OutcomeOf(r.Value())
    ensures outcome.PutBack? <==> r.offset < r.total
    ensures old(conn.broken) ==> conn.broken
    ensures outcome.PutBack? ==> store.files == old(store.files) && store.refusals == old(store.refusals)
    ensures outcome.Finished? ==>
              && store.files == (old(store.files) - {r.staging})[r.name := old(store.files)[r.staging]]
              && store.refusals == old(store.refusals)
    ensures outcome.Failed? ==> store.files == old(store.files) && store.refusals == old(store.refusals) + [r.staging]
    ensures !conn.broken ==>
              conn.wire == old(conn.wire)
                           + match outcome
                             case PutBack => []
                             case Finished => StatusLine(0)
                             case Failed => RefusalLine(CannotCommit)
  {
    hide StatusLine, RefusalLine;
    if s.ShouldRequeue(r) {
      return PutBack;
    }
    var renamed := Publish(r, store, conn);
    outcome := if renamed then Finished else Failed;
  }

  /** Renames the complete staging file to the name of the upload, and answers the client. */
  method Publish(r: Request, store: FileStore, conn: Connection) returns (ok: bool)
    requires r.staging in store.files
    modifies store, conn`wire, conn`sends, conn`broken, conn`stalls
    ensures store.files == if ok then (old(store.files) - {r.staging})[r.name := old(store.files)[r.staging]]
                           else old(store.files)
    ensures store.refusals == if ok then old(store.refusals) else old(store.refusals) + [r.staging]
    ensures old(conn.broken) ==> conn.broken
    ensures !conn.broken ==>
              conn.wire == old(conn.wire) + if ok then StatusLine(0) else RefusalLine(CannotCommit)
  {
    ok := store.Rename(r.staging, r.name);
    if ok {
      var _ := conn.SendAll(StatusLine(0));
    } else {
      var _ := conn.SendAll(ErrorLine("cannot commit file"));
    }
  }

  lemma DropTwo(m: map<string, Bytes>, n: map<string, Bytes>, a: string, b: string)
    requires m - {a} == n - {a}
    ensures m - {a, b} == n - {a, b}
  {
    assert m - {a, b} == (m - {a}) - {b} && n - {a, b} == (n - {a}) - {b};
  }

  lemma BudgetWithin(c: Config, j: Job)
    requires j.offset <= j.total
    ensures Budget(c, j) <= j.total - j.offset
  {
  }

  /** Appending what a round took off the stream extends the staged prefix of the body. */
  lemma StagedPrefix(body: Bytes, from: nat, n: nat, ahead: Bytes)
    requires from + n <= |body| && n <= |ahead| && Agree(body[from..], ahead)
    ensures body[..from] + ahead[..n] == body[..from + n]
    ensures Agree(body[from + n..], ahead[n..])
    ensures body[from..] <= ahead ==> body[from + n..] <= ahead[n..]
    ensures body[..|body|] == body
  {
    var rest := body[from..];
    assert rest[n..] == body[from + n..];
    assert ahead[..n] == rest[..n] == body[from..from + n];
    if rest <= ahead {
      assert ahead == rest + ahead[|rest|..];
    } else {
      assert rest == ahead + rest[|ahead|..];
    }
  }

  /**
   * What a PUT round does to the served directory: nothing but the staging file changes before the
   * final rename. An upload advances, or becomes visible as a whole at its end, or it fails because
   * an operation on its own staging file was refused or its client stops early; it then leaves no
   * file behind, unless all that failed was the rename of the complete one.
   */
  ghost predicate UploadTurn(c: Config, before: Job, body: Bytes, staging: string, outcome: Outcome, r: Job,
                             files: map<string, Bytes>, now: map<string, Bytes>,
                             refusals: seq<string>, refusalsNow: seq<string>,
                             chunks: seq<Bytes>, later: seq<Bytes>)
    requires before.offset <= before.total
  {
    && now - {staging, before.name} == files - {staging, before.name}
    && (!outcome.Finished? ==> now - {staging} == files - {staging})
    && (refusalsNow == refusals || (outcome.Failed? && refusalsNow == refusals + [staging]))
    && (outcome.Failed? && staging != "" && staging in now ==> r == PutRound(c, before) && r.offset == r.total)
    && (Uploading(before, body, files, chunks) ==>
          && (outcome.Failed? ==>
                && (|| !IsValidFilename(before.name)
                    || refusalsNow == refusals + [staging]
                    || !Arrives(before, body, chunks))
                && (staging != "" && staging in now ==> now[staging] == body))
          && (outcome.PutBack? ==>
                && Uploading(r, body, now, later)
                && (Arrives(before, body, chunks) ==> Arrives(r, body, later)))
          && (outcome.Finished? ==> now == (files - {staging})[before.name := body]))
  }

  /** What a round does to the request, its connection and the served directory. */
  ghost predicate RoundTurn(c: Config, before: Job, body: Bytes, servable: bool, outcome: Outcome, r: Job,
                            link: Link, now: Link, files: map<string, Bytes>, filesNow: map<string, Bytes>,
                            refusals: seq<string>, refusalsNow: seq<string>)
    requires |body| == before.total && before.offset <= before.total
  {
    && r.id == before.id && r.name == before.name && r.op == before.op
    && (link.broken ==> now.broken)
    && (!outcome.Failed? ==>
          && r == RoundOf(c, body, before)
          && outcome == OutcomeOf(r)
          && (!now.broken ==> now.wire == link.wire + SentBy(c, body, before)))
    && (before.op.GET? ==>
          && filesNow == files && refusalsNow == refusals
          && (outcome.Failed? ==> !servable || now.broken))
    && (before.op.PUT? ==>
          UploadTurn(c, before, body, StagingAfter(before), outcome, r, files, filesNow, refusals, refusalsNow,
                     link.incoming, now.incoming))
  }

  /** The rest of an iteration, after the request was taken and its budget drawn. */
  method ServeAndDecide(s: Scheduler, queue: RequestQueue, r: Request, budget: nat, ghost before: Job,
                        store: FileStore, conn: Connection, file: Option<Bytes>, ghost body: Bytes,
                        packetization: int)
    returns (outcome: Outcome)
    requires r.Value() == Charged(s.Setting(), before) && budget == Budget(s.Setting(), before)
    requires |body| == before.total && before.offset <= before.total
    requires before.op.GET? && file.Some? ==> file.value == body
    modifies r, queue`items, queue`inflight, store, conn`incoming, conn`wire, conn`sends, conn`broken, conn`stalls
    ensures outcome.PutBack? ==> queue.State() == old(queue.State()).Requeued(r.Value())
    ensures !outcome.PutBack? ==> queue.State() == old(queue.State()).Completed()
    ensures RoundTurn(s.Setting(), before, body, IsValidFilename(before.name) && file.Some? && packetization > 0,
                      outcome, r.Value(), old(conn.State()), conn.State(), old(store.files), store.files,
                      old(store.refusals), store.refusals)
  {
    hide GetRound, PutRound, Charged, Budget, Uploading, GetBytes, PutBytes, IsValidFilename, Flatten, StagingAfter;
    ChargedKeeps(s.Setting(), before);
    match r.op {
      case GET =>
        outcome := ServeGetRound(s, r, budget, before, conn, file, packetization);
      case PUT =>
        ghost var why;
        outcome, why := ServePutRound(s, r, budget, before, conn, store, body);
    }
    if outcome == PutBack {
      var _ := queue.Requeue(r.Value());
    } else {
      queue.Complete();
    }
  }
}
