/** What a GET puts on the wire, under every policy: the status line once, then the file in order. */
module Delivery {
  import opened Common
  import opened Lines
  import opened Decimals
  import opened Rounds

  function StatusLine(n: nat): Bytes {
    "OK " + Decimal(n) + "\n"
  }

  lemma ZeroStatus()
    ensures StatusLine(0) == "OK 0\n"
  {
    assert Decimal(0) == "0";
  }

  /** Bytes one GET round writes to the connection. */
  function GetBytes(c: Config, f: Bytes, j: Job): Bytes
    requires |f| == j.total && j.offset <= j.total
  {
    var n := Selected(f, j.offset, Budget(c, j), c.policy.RR?);
    (if j.responseSent then [] else StatusLine(j.total)) + f[j.offset..j.offset + n]
  }

  /** Everything written after `k` rounds. */
  function GetStream(c: Config, f: Bytes, j: Job, k: nat): Bytes
    requires |f| == j.total && j.offset <= j.total
  {
    if k == 0 then [] else GetStream(c, f, j, k - 1) + GetBytes(c, f, GetRun(c, f, j, k - 1))
  }

  /** A GET round accounts for exactly the bytes it selected: the clamp in `Accounted` never bites. */
  lemma RoundAdvance(c: Config, f: Bytes, j: Job)
    requires |f| == j.total && j.offset <= j.total
    ensures GetRound(c, f, j).offset == j.offset + Selected(f, j.offset, Budget(c, j), c.policy.RR?)
    ensures GetRound(c, f, j).responseSent
    ensures GetBytes(c, f, j) ==
              (if j.responseSent then [] else StatusLine(j.total)) + f[j.offset..GetRound(c, f, j).offset]
    ensures Boundary(f, j.offset) ==> Boundary(f, GetRound(c, f, j).offset)
  {
    hide Reach, LineEnd, Boundary, Overruns;
  }

  lemma AtStart(f: Bytes)
    ensures Boundary(f, 0)
  {
  }

  /** Holds for every policy and quantum, also when the deficit arithmetic wraps around. */
  lemma {:induction false} StreamIsPrefix(c: Config, f: Bytes, j: Job, k: nat)
    requires j.Fresh() && j.total == |f|
    ensures Boundary(f, GetRun(c, f, j, k).offset)
    ensures k == 0 ==> GetStream(c, f, j, k) == []
    ensures k > 0 ==>
              && GetRun(c, f, j, k).responseSent
              && GetStream(c, f, j, k) == StatusLine(|f|) + f[..GetRun(c, f, j, k).offset]
  {
    hide GetRound, GetBytes, Boundary, StatusLine;
    if k == 0 {
      AtStart(f);
    } else {
      var before := GetRun(c, f, j, k - 1);
      StreamIsPrefix(c, f, j, k - 1);
      RoundAdvance(c, f, before);
      var after := GetRun(c, f, j, k).offset;
      StreamGrows(StatusLine(|f|), f, before.offset, after);
    }
  }

  lemma StreamGrows(status: Bytes, f: Bytes, from: nat, to: nat)
    requires from <= to <= |f|
    ensures (status + f[..from]) + ([] + f[from..to]) == status + f[..to]
    ensures from == 0 ==> [] + (status + f[from..to]) == status + f[..to]
  {
    assert f[..from] + f[from..to] == f[..to];
  }

  /** Once a GET is finished its peer has been sent the status line and the whole file. */
  lemma WholeFileDelivered(c: Config, f: Bytes, j: Job, k: nat)
    requires j.Fresh() && j.total == |f|
    requires k > 0 && GetRun(c, f, j, k).offset == |f|
    ensures GetStream(c, f, j, k) == StatusLine(|f|) + f
    ensures StatusLine(|f|) == "OK " + Decimal(|f|) + "\n"
  {
    StreamIsPrefix(c, f, j, k);
    assert f[..|f|] == f;
  }

  /** Under every policy an empty GET takes one round, and all it is sent is the status line. */
  lemma EmptyGet(c: Config, j: Job)
    requires j.Fresh() && j.total == 0
    ensures GetTakes(c, [], j, 1)
    ensures GetRun(c, [], j, 1) == j.(rounds := 1, responseSent := true)
    ensures GetStream(c, [], j, 1) == "OK 0\n"
  {
    ZeroStatus();
    hide StatusLine;
    assert GetRun(c, [], j, 0) == j && GetStream(c, [], j, 0) == [];
    assert [] + (StatusLine(0) + []) == StatusLine(0);
  }

  /** FCFS and SJF serve a request in one round, GET and PUT alike. */
  lemma OneRound(c: Config, f: Bytes, j: Job)
    requires c.policy.FCFS? || c.policy.SJF?
    requires j.Fresh() && j.total == |f|
    ensures GetTakes(c, f, j, 1)
    ensures PutRun(c, j, 1).offset == j.total
  {
    hide Overruns, StagingName;
    assert GetRun(c, f, j, 0) == j && PutRun(c, j, 0) == j;
  }
}
