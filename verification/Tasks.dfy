/** A request together with its client's body and wire, as it moves through the concurrent server. */
module Tasks {
  import opened Common
  import opened Lines
  import opened Rounds
  import opened Delivery
  import Drr
  import RoundRobin
  import Decimals

  /** `body` is the file a GET reads or the body a PUT uploads; `wire` is what the server has sent. */
  datatype Task = Task(job: Job, body: Bytes, wire: Bytes)

  /** The sizes agree, and the size of a GET is the length of a file. */
  predicate Shaped(t: Task) {
    && |t.body| == t.job.total && t.job.offset <= t.job.total
    && (t.job.op.GET? ==> t.job.total < FILE_LENGTHS)
  }

  /** The request as it was admitted. */
  function Start(j: Job): (r: Job)
    ensures r.Fresh() && r.total == j.total && r.op == j.op && r.id == j.id
    ensures j.Fresh() ==> r == j
  {
    j.(offset := 0, rounds := 0, forfeited := 0, deficit := 0, a14 := 0,
       pendingOffset := 0, staging := "", responseSent := false)
  }

  function RoundOf(c: Config, body: Bytes, j: Job): (r: Job)
    requires |body| == j.total && j.offset <= j.total
    ensures r.id == j.id && r.op == j.op
    ensures r.total == j.total && j.offset <= r.offset <= r.total && r.rounds == j.rounds + 1
  {
    if j.op.GET? then GetRound(c, body, j) else PutRound(c, j)
  }

  function RunOf(c: Config, body: Bytes, j: Job, k: nat): (r: Job)
    requires |body| == j.total && j.offset <= j.total
    ensures r.total == j.total && j.offset <= r.offset <= r.total && r.rounds == j.rounds + k
  {
    if j.op.GET? then GetRun(c, body, j, k) else PutRun(c, j, k)
  }

  /** A PUT round answers `OK 0` before the first byte and again after the commit. */
  function PutBytes(c: Config, j: Job): Bytes
    requires j.offset <= j.total
  {
    (if j.offset == 0 then StatusLine(0) else [])
    + (if PutRound(c, j).offset == j.total then StatusLine(0) else [])
  }

  function SentBy(c: Config, body: Bytes, j: Job): Bytes
    requires |body| == j.total && j.offset <= j.total
  {
    if j.op.GET? then GetBytes(c, body, j) else PutBytes(c, j)
  }

  function StreamOf(c: Config, body: Bytes, j: Job, k: nat): Bytes
    requires |body| == j.total && j.offset <= j.total
  {
    if k == 0 then [] else StreamOf(c, body, j, k - 1) + SentBy(c, body, RunOf(c, body, j, k - 1))
  }

  /** One successful round. */
  function Served(c: Config, t: Task): (r: Task)
    requires Shaped(t)
    ensures r.job.id == t.job.id && r.job.op == t.job.op
    ensures r.body == t.body && r.job.total == t.job.total && r.job.offset <= r.job.total
    ensures r.job.rounds == t.job.rounds + 1
  {
    Task(RoundOf(c, t.body, t.job), t.body, t.wire + SentBy(c, t.body, t.job))
  }

  /** The request is where `rounds` rounds by whatever workers have brought it. */
  predicate OnTrack(c: Config, t: Task) {
    && Shaped(t)
    && t.job == RunOf(c, t.body, Start(t.job), t.job.rounds)
    && t.wire == StreamOf(c, t.body, Start(t.job), t.job.rounds)
  }

  /** Waiting for its next round. */
  predicate Waiting(c: Config, t: Task) {
    OnTrack(c, t) && (t.job.rounds == 0 || t.job.offset < t.job.total)
  }

  /** Finished, in the round that transferred the last byte. */
  predicate Complete(c: Config, t: Task) {
    && OnTrack(c, t)
    && t.job.offset == t.job.total
    && t.job.rounds > 0
    && (t.job.rounds > 1 ==> RunOf(c, t.body, Start(t.job), t.job.rounds - 1).offset < t.job.total)
  }

  predicate Admissible(t: Task) {
    t.job.Fresh() && Shaped(t) && t.wire == []
  }

  lemma AdmissibleWaits(c: Config, t: Task)
    requires Admissible(t)
    ensures Waiting(c, t)
  {
  }

  lemma StartKept(c: Config, body: Bytes, j: Job)
    requires |body| == j.total && j.offset <= j.total
    ensures Start(RoundOf(c, body, j)) == Start(j)
  {
    hide Selected, Overruns, Wrap, StagingName;
  }

  lemma RunUnfolds(c: Config, body: Bytes, j: Job, k: nat)
    requires |body| == j.total && j.offset <= j.total
    ensures RunOf(c, body, j, k).op == j.op
    ensures RunOf(c, body, j, k + 1) == RoundOf(c, body, RunOf(c, body, j, k))
  {
    hide GetRound, PutRound;
    RunKeepsOp(c, body, j, k);
  }

  lemma {:induction false} RunKeepsOp(c: Config, body: Bytes, j: Job, k: nat)
    requires |body| == j.total && j.offset <= j.total
    ensures RunOf(c, body, j, k).op == j.op
  {
    hide GetRound, PutRound;
    if k > 0 {
      RunKeepsOp(c, body, j, k - 1);
      StartKept(c, body, RunOf(c, body, j, k - 1));
    }
  }

  /** A round keeps a waiting request on track: it is put back unfinished or it is complete. */
  lemma ServedKeeps(c: Config, t: Task)
    requires Waiting(c, t)
    ensures var r := Served(c, t);
            && r.job.id == t.job.id
            && (r.job.offset < r.job.total ==> Waiting(c, r))
            && (r.job.offset == r.job.total ==> Complete(c, r))
  {
    hide RoundOf, RunOf, SentBy;
    StartKept(c, t.body, t.job);
    RunUnfolds(c, t.body, Start(t.job), t.job.rounds);
  }

  // ----- What completion means -----

  lemma {:induction false} StreamOfGet(c: Config, body: Bytes, j: Job, k: nat)
    requires |body| == j.total && j.offset <= j.total && j.op.GET?
    ensures StreamOf(c, body, j, k) == GetStream(c, body, j, k)
  {
    hide GetBytes, GetRound;
    if k > 0 {
      RunKeepsOp(c, body, j, k - 1);
      StreamOfGet(c, body, j, k - 1);
    }
  }

  /** A completed GET has sent its status line once and then the whole file in order. */
  lemma CompleteGetDelivered(c: Config, t: Task)
    requires Complete(c, t) && t.job.op.GET?
    ensures t.wire == StatusLine(|t.body|) + t.body
    ensures StatusLine(|t.body|) == "OK " + Decimals.Decimal(|t.body|) + "\n"
    ensures GetTakes(c, t.body, Start(t.job), t.job.rounds)
  {
    hide GetRun, GetStream, StreamOf, StatusLine;
    StreamOfGet(c, t.body, Start(t.job), t.job.rounds);
    WholeFileDelivered(c, t.body, Start(t.job), t.job.rounds);
  }

  /** From the first round on, an unfinished upload is past its first byte. */
  lemma {:induction false} PutMoves(c: Config, j: Job, k: nat)
    requires c.Valid() && j.Fresh() && j.total > 0 && k > 0
    ensures PutRun(c, j, k).offset > 0
  {
    hide PutRound;
    if k == 1 {
      assert PutRun(c, j, 0) == j;
      if c.policy.DRR? {
        Drr.PutClosedForm(c, j, 1);
      } else {
        PutAdvances(c, j);
      }
    } else {
      PutMoves(c, j, k - 1);
    }
  }

  lemma PutAdvances(c: Config, j: Job)
    requires c.Valid() && !c.policy.DRR? && j.offset < j.total
    ensures PutRound(c, j).offset > j.offset
  {
    hide StagingName;
  }

  lemma {:induction false} UnfinishedPutStream(c: Config, body: Bytes, j: Job, k: nat)
    requires |body| == j.total > 0 && c.Valid() && j.Fresh() && j.op.PUT? && k > 0
    requires PutRun(c, j, k).offset < j.total
    ensures StreamOf(c, body, j, k) == StatusLine(0)
  {
    hide PutRound, StatusLine;
    RunKeepsOp(c, body, j, k - 1);
    var before := PutRun(c, j, k - 1);
    if k == 1 {
      assert before == j && StreamOf(c, body, j, 0) == [];
    } else {
      PutMoves(c, j, k - 1);
      assert before.offset <= PutRun(c, j, k).offset;
      UnfinishedPutStream(c, body, j, k - 1);
    }
    assert StatusLine(0) + [] == StatusLine(0) && [] + StatusLine(0) == StatusLine(0);
    assert PutBytes(c, before) == if before.offset == 0 then StatusLine(0) else [];
  }

  /** A completed PUT has been answered twice: once before its body, once when it was committed. */
  lemma CompletePutAnswered(c: Config, t: Task)
    requires c.Valid() && Complete(c, t) && t.job.op.PUT?
    ensures t.wire == StatusLine(0) + StatusLine(0)
    ensures StatusLine(0) == "OK 0\n"
  {
    ZeroStatus();
    hide PutRound, StatusLine;
    var j, k := Start(t.job), t.job.rounds;
    RunKeepsOp(c, t.body, j, k - 1);
    if k == 1 {
      assert PutRun(c, j, 0) == j && StreamOf(c, t.body, j, 0) == [];
    } else {
      PutMoves(c, j, k - 1);
      UnfinishedPutStream(c, t.body, j, k - 1);
    }
    assert [] + StatusLine(0) == StatusLine(0);
    assert [] + (StatusLine(0) + StatusLine(0)) == StatusLine(0) + StatusLine(0);
  }

  /** A completed DRR request took exactly `CeilDiv(total, Q)` rounds, one if it was empty. */
  lemma CompleteDrrRounds(c: Config, t: Task)
    requires c.policy.DRR? && c.Valid()
    requires Complete(c, t) && t.job.total > 0
    ensures t.job.rounds == CeilDiv(t.job.total, c.quantum)
  {
    hide GetRun, PutRun, StreamOf;
    if t.job.op.GET? {
      Drr.EveryFile(c, t.body, Start(t.job), t.job.rounds);
    } else {
      Drr.PutRoundCount(c, Start(t.job), t.job.rounds);
    }
  }

  // ----- Termination measure of one request -----

  /** Rounds (DRR) or bytes (otherwise) that bound the rounds still to come after the next one. */
  function Rank(c: Config, t: Task): nat {
    if c.policy.DRR? && c.quantum > 0
    then var r := CeilDiv(t.job.total, c.quantum); if t.job.rounds < r then r - t.job.rounds else 0
    else t.job.Remaining()
  }

  /** A request that is put back has strictly less to do. */
  lemma RankDecreases(c: Config, t: Task)
    requires c.Valid() && Waiting(c, t)
    requires Served(c, t).job.offset < t.job.total
    ensures Rank(c, Served(c, t)) < Rank(c, t)
  {
    hide GetRun, PutRun, StreamOf, GetRound, PutRound, SentBy;
    var j0, k := Start(t.job), t.job.rounds;
    RunUnfolds(c, t.body, j0, k);
    if c.policy.DRR? {
      if t.job.op.GET? {
        Drr.EveryFile(c, t.body, j0, k + 1);
      } else {
        Drr.PutRoundCount(c, j0, k + 1);
      }
    } else {
      RoundAdvances(c, t);
    }
  }

  lemma RoundAdvances(c: Config, t: Task)
    requires c.Valid() && !c.policy.DRR? && Waiting(c, t)
    requires t.job.offset < t.job.total
    ensures Served(c, t).job.offset > t.job.offset
  {
    hide GetRun, PutRun, StreamOf, SentBy, StagingName;
    if t.job.op.GET? {
      var budget := Budget(c, t.job);
      assert budget > 0;
      if c.policy.RR? {
        OnTrackBoundary(c, t);
        RoundRobin.Round(c, t.body, t.job);
      }
    }
  }

  lemma OnTrackBoundary(c: Config, t: Task)
    requires Waiting(c, t) && t.job.op.GET?
    ensures Boundary(t.body, t.job.offset)
  {
    hide GetRun, StreamOf;
    StreamIsPrefix(c, t.body, Start(t.job), t.job.rounds);
  }
}
