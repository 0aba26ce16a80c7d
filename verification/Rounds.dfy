/**
 * Scheduling rounds as functions on values: what one budgeted round does to one request.
 * The classes of `Scheduling` and `Server` are proved against these functions.
 */
module Rounds {
  import opened Common
  import opened Lines
  import opened Decimals

  datatype Policy = FCFS | SJF | RR | DRR

  datatype Operation = GET | PUT

  datatype Config = Config(policy: Policy, quantum: nat) {
    /** What the scheduler's constructor accepts, for a 64-bit quantum. */
    predicate Valid() {
      quantum < U64 && (policy.RR? || policy.DRR? ==> quantum > 0)
    }
  }

  /** The value of a request, as it travels through the queue. */
  datatype Job = Job(
    id: nat,
    op: Operation,
    name: string,
    total: nat,
    offset: nat,
    rounds: nat,
    forfeited: nat,
    deficit: nat,
    a14: nat,
    arrival: nat,
    pending: Bytes,
    pendingOffset: nat,
    staging: string,
    responseSent: bool)
  {
    /** A request no worker has touched yet. */
    predicate Fresh() {
      && offset == rounds == forfeited == deficit == a14 == pendingOffset == 0
      && staging == "" && !responseSent
    }

    function Remaining(): nat {
      if total > offset then total - offset else 0
    }
  }

  /** Unsigned 64-bit arithmetic. */
  function Wrap(x: nat): (r: nat)
    ensures r < U64
    ensures x < U64 ==> r == x
    ensures U64 <= x < 2 * U64 ==> r == x - U64
  {
    x % U64
  }

  /** The deficit after the budget of a round was drawn; DRR adds its quantum in 64-bit arithmetic. */
  function Charged(c: Config, j: Job): Job {
    if c.policy.DRR? && j.Remaining() > 0 then j.(deficit := Wrap(j.deficit + c.quantum)) else j
  }

  /** The byte budget of the next round. */
  function Budget(c: Config, j: Job): nat {
    match c.policy
    case FCFS => j.Remaining()
    case SJF => j.Remaining()
    case RR => Min(j.Remaining(), c.quantum)
    case DRR => if j.Remaining() == 0 then 0 else Min(j.Remaining(), Charged(c, j).deficit)
  }

  /** Progress after `bytes` were transferred. */
  function Accounted(c: Config, j: Job, bytes: nat): Job {
    var actual := Min(bytes, j.Remaining());
    var deficit :=
      if !c.policy.DRR? then j.deficit
      else if actual >= j.deficit then 0
      else j.deficit - actual;
    j.(rounds := j.rounds + 1, offset := j.offset + actual, deficit := deficit)
  }

  /** A round whose first line is longer than the budget, under the policy that then sends it anyway. */
  predicate Overruns(f: Bytes, off: nat, budget: nat, allowOverrun: bool) {
    && allowOverrun
    && off < |f|
    && 0 < budget < |f| - off
    && Reach(f, off, off + budget) == off
  }

  /** Bytes a GET round transfers from `off`: everything, or the whole lines that fit. */
  function Selected(f: Bytes, off: nat, budget: nat, allowOverrun: bool): (n: nat)
    requires off <= |f|
    ensures off + n <= |f|
    ensures Boundary(f, off) ==> Boundary(f, off + n)
  {
    if off == |f| || budget == 0 then 0
    else if budget >= |f| - off then |f| - off
    else if Overruns(f, off, budget, allowOverrun) then LineEnd(f, off) - off
    else Reach(f, off, off + budget) - off
  }

  /** The request after one successful GET round over a file `f` of `j.total` bytes. */
  function GetRound(c: Config, f: Bytes, j: Job): (r: Job)
    requires |f| == j.total && j.offset <= j.total
    ensures r.id == j.id && r.op == j.op
    ensures r.total == j.total && j.offset <= r.offset <= r.total
    ensures r.rounds == j.rounds + 1
  {
    var budget := Budget(c, j);
    var n := Selected(f, j.offset, budget, c.policy.RR?);
    var over := if Overruns(f, j.offset, budget, c.policy.RR?) then 1 else 0;
    var done := Accounted(c, Charged(c, j).(responseSent := true, a14 := j.a14 + over), n);
    if c.policy.RR? && done.Remaining() > 0 && n < budget
    then done.(forfeited := done.forfeited + (budget - n))
    else done
  }

  /** The request after `k` successful GET rounds. */
  function GetRun(c: Config, f: Bytes, j: Job, k: nat): (r: Job)
    requires |f| == j.total && j.offset <= j.total
    ensures r.total == j.total && j.offset <= r.offset <= r.total
    ensures r.rounds == j.rounds + k
  {
    if k == 0 then j else GetRound(c, f, GetRun(c, f, j, k - 1))
  }

  /** Round `k` takes place: it is the first one, or the round before left the request unfinished. */
  predicate GetHappens(c: Config, f: Bytes, j: Job, k: nat)
    requires |f| == j.total && j.offset <= j.total
  {
    k <= 1 || GetRun(c, f, j, k - 1).offset < |f|
  }

  /** The GET is served in exactly `k` rounds. */
  predicate GetTakes(c: Config, f: Bytes, j: Job, k: nat)
    requires |f| == j.total && j.offset <= j.total
  {
    k > 0 && GetHappens(c, f, j, k) && GetRun(c, f, j, k).offset == |f|
  }

  lemma {:induction false} GetRunMonotone(c: Config, f: Bytes, j: Job, i: nat, k: nat)
    requires |f| == j.total && j.offset <= j.total && i <= k
    ensures GetRun(c, f, j, i).offset <= GetRun(c, f, j, k).offset
  {
    hide GetRound;
    if i < k {
      GetRunMonotone(c, f, j, i, k - 1);
    }
  }

  /** Only RR forfeits bytes and sends overlong lines, and only DRR saves up a deficit. */
  lemma {:induction false} OwnCounters(c: Config, f: Bytes, j: Job, k: nat)
    requires |f| == j.total && j.offset <= j.total
    ensures var r := GetRun(c, f, j, k);
            && (!c.policy.RR? ==> r.forfeited == j.forfeited && r.a14 == j.a14)
            && (!c.policy.DRR? ==> r.deficit == j.deficit)
            && r.pendingOffset == j.pendingOffset && r.staging == j.staging
  {
    hide GetRound;
    if k > 0 {
      OwnCounters(c, f, j, k - 1);
      OwnCountersRound(c, f, GetRun(c, f, j, k - 1));
    }
  }

  lemma OwnCountersRound(c: Config, f: Bytes, j: Job)
    requires |f| == j.total && j.offset <= j.total
    ensures var r := GetRound(c, f, j);
            && (!c.policy.RR? ==> r.forfeited == j.forfeited && r.a14 == j.a14)
            && (!c.policy.DRR? ==> r.deficit == j.deficit)
            && r.pendingOffset == j.pendingOffset && r.staging == j.staging
  {
    hide Selected, Wrap;
  }

  /** The number of rounds of a GET is unique, and no later round takes place. */
  lemma GetTakesUnique(c: Config, f: Bytes, j: Job, r: nat, k: nat)
    requires |f| == j.total && j.offset <= j.total && GetTakes(c, f, j, r)
    ensures GetHappens(c, f, j, k) <==> k <= r
    ensures GetTakes(c, f, j, k) <==> k == r
  {
    hide GetRound, GetRun;
    if k > r {
      GetRunMonotone(c, f, j, r, k - 1);
    } else if 1 < k {
      GetRunMonotone(c, f, j, k - 1, r - 1);
      if k < r {
        GetRunMonotone(c, f, j, k, r - 1);
      }
    } else if k < r {
      GetRunMonotone(c, f, j, k, r - 1);
    }
  }

  /** Name under which an upload is staged until it is complete. */
  function StagingName(name: string, id: nat): string {
    name + ".upload." + Decimal(id)
  }

  /** The request after one successful PUT round: exactly the budget, header leftovers first. */
  function PutRound(c: Config, j: Job): (r: Job)
    requires j.offset <= j.total
    ensures r.id == j.id && r.op == j.op
    ensures r.total == j.total && j.offset <= r.offset <= r.total
    ensures r.rounds == j.rounds + 1
  {
    var budget := Budget(c, j);
    var staged := if j.offset == 0 then j.(staging := StagingName(j.name, j.id)) else j;
    var left := if j.pendingOffset <= |j.pending| then |j.pending| - j.pendingOffset else 0;
    Accounted(c, Charged(c, staged).(pendingOffset := j.pendingOffset + Min(budget, left)), budget)
  }

  /** The request after `k` successful PUT rounds. */
  function PutRun(c: Config, j: Job, k: nat): (r: Job)
    requires j.offset <= j.total
    ensures r.total == j.total && j.offset <= r.offset <= r.total
    ensures r.rounds == j.rounds + k
  {
    if k == 0 then j else PutRound(c, PutRun(c, j, k - 1))
  }

  predicate PutHappens(c: Config, j: Job, k: nat)
    requires j.offset <= j.total
  {
    k <= 1 || PutRun(c, j, k - 1).offset < j.total
  }
}
