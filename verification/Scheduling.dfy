/** The scheduler object of scheduling.cpp, and the request record it updates in place. */
module Scheduling {
  import opened Common
  import opened Rounds

  /** A request while a worker holds it. */
  class Request {
    const id: nat
    const op: Operation
    const name: string
    const total: nat
    const arrival: nat
    const pending: Bytes
    var offset: nat
    var rounds: nat
    var forfeited: nat
    var deficit: nat
    var a14: nat
    var pendingOffset: nat
    var staging: string
    var responseSent: bool

    constructor (j: Job)
      ensures Value() == j
    {
      id, op, name, total, arrival, pending := j.id, j.op, j.name, j.total, j.arrival, j.pending;
      offset, rounds, forfeited, deficit, a14 := j.offset, j.rounds, j.forfeited, j.deficit, j.a14;
      pendingOffset, staging, responseSent := j.pendingOffset, j.staging, j.responseSent;
    }

    function Value(): Job
      reads this
    {
      Job(id, op, name, total, offset, rounds, forfeited, deficit, a14, arrival,
          pending, pendingOffset, staging, responseSent)
    }
  }

  class Scheduler {
    const policy: Policy
    const quantum: nat

    ghost predicate Valid() {
      Setting().Valid()
    }

    function Setting(): Config {
      Config(policy, quantum)
    }

    constructor (policy: Policy, quantum: nat)
      ensures this.policy == policy && this.quantum == quantum
    {
      this.policy, this.quantum := policy, quantum;
    }

    /** Refuses a zero quantum for the two policies that need one. */
    static method Create(policy: Policy, quantum: nat) returns (s: Option<Scheduler>)
      requires quantum < U64
      ensures s.None? <==> quantum == 0 && (policy.RR? || policy.DRR?)
      ensures s.Some? ==> fresh(s.value) && s.value.Valid() && s.value.Setting() == Config(policy, quantum)
    {
      if (policy.RR? || policy.DRR?) && quantum == 0 {
        return None;
      }
      var scheduler := new Scheduler(policy, quantum);
      return Some(scheduler);
    }

    method GetBudget(r: Request) returns (budget: nat)
      modifies r`deficit
      ensures budget == Budget(Setting(), old(r.Value()))
      ensures r.Value() == Charged(Setting(), old(r.Value()))
    {
      var remaining := if r.total > r.offset then r.total - r.offset else 0;
      if remaining == 0 {
        return 0;
      }
      match policy {
        case FCFS =>
          return remaining;
        case SJF =>
          return remaining;
        case RR =>
          return Min(remaining, quantum);
        case DRR =>
          r.deficit := Wrap(r.deficit + quantum);
          return Min(remaining, r.deficit);
      }
    }

    method Account(r: Request, bytesProcessed: nat)
      modifies r`rounds, r`offset, r`deficit
      ensures r.Value() == Accounted(Setting(), old(r.Value()), bytesProcessed)
    {
      r.rounds := r.rounds + 1;
      var remaining := if r.total > r.offset then r.total - r.offset else 0;
      var actual := Min(bytesProcessed, remaining);
      r.offset := r.offset + actual;
      if policy == DRR {
        if actual >= r.deficit {
          r.deficit := 0;
        } else {
          r.deficit := r.deficit - actual;
        }
      }
    }

    /** A request goes back to the queue exactly while some of it is untransferred. */
    predicate ShouldRequeue(r: Request)
      reads r
      ensures ShouldRequeue(r) <==> r.offset < r.total
    {
      r.Value().Remaining() > 0
    }
  }
}
