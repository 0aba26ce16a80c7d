/** How long a request can be passed over, and how evenly one worker serves two of them. */
module Fairness {
  import opened Sums
  import opened Lines
  import opened Rounds
  import opened Pools
  import opened Tasks
  import opened Protocol
  import opened Safety
  import opened Conservation
  import Drr

  function Takes(steps: seq<Step>): nat {
    if steps == [] then 0 else One(steps[0].Take?) + Takes(steps[1..])
  }

  lemma QueueStep(c: Config, s: State, st: Step, k: nat)
    requires Enabled(c, s, st) && !c.policy.SJF? && k < |s.queue.items|
    ensures var items := Next(c, s, st).queue.items;
            && (!st.Take? ==> k < |items| && items[k] == s.queue.items[k])
            && (st.Take? && k > 0 ==> k - 1 < |items| && items[k - 1] == s.queue.items[k])
  {
    hide Served, Shaped, Admissible, MayWake;
    if st.Parser().Some? {
      hide NextOfWorker, NextOfOther;
    } else if st.Worker().Some? {
      hide NextOfParser, NextOfOther;
    } else {
      hide NextOfParser, NextOfWorker;
    }
  }

  /** Pushes and requeues never delay a queued request: only takes move it, one place each. */
  lemma {:induction false} OnlyTakesMove(c: Config, s: State, steps: seq<Step>, k: nat)
    requires IsRun(c, s, steps) && !c.policy.SJF?
    requires k < |s.queue.items| && Takes(steps) <= k
    ensures var items := After(c, s, steps).queue.items;
            k - Takes(steps) < |items| && items[k - Takes(steps)] == s.queue.items[k]
    decreases |steps|
  {
    hide Enabled, Next;
    if steps != [] {
      QueueStep(c, s, steps[0], k);
      OnlyTakesMove(c, Next(c, s, steps[0]), steps[1..], k - One(steps[0].Take?));
    }
  }

  /** Under FCFS, RR and DRR the request at index `k` is taken by exactly the `k + 1`-st take. */
  lemma BoundedWaiting(c: Config, s: State, steps: seq<Step>, w: nat, k: nat)
    requires IsRun(c, s, steps) && !c.policy.SJF?
    requires k < |s.queue.items| && Takes(steps) == k
    requires Enabled(c, After(c, s, steps), Take(w))
    ensures var n := Next(c, After(c, s, steps), Take(w));
            w < |n.workers| && n.workers[w] == Busy(s.queue.items[k])
  {
    hide Enabled, Next;
    OnlyTakesMove(c, s, steps, k);
    TakeServesHead(c, After(c, s, steps), w);
  }

  lemma TakeServesHead(c: Config, s: State, w: nat)
    requires Enabled(c, s, Take(w)) && !c.policy.SJF?
    ensures w < |Next(c, s, Take(w)).workers|
    ensures Next(c, s, Take(w)).workers[w] == Busy(s.queue.items[0])
  {
    hide NextOfParser, NextOfOther;
  }

  // ----- One worker -----

  /** Requests in the order one worker gets to them: the one in service, then the queue. */
  function Line(s: State): seq<Task>
    requires |s.workers| == 1
  {
    (if s.workers[0].Busy? then [s.workers[0].work] else []) + s.queue.items
  }

  ghost predicate Distinct(line: seq<Task>) {
    forall i, j :: 0 <= i < j < |line| ==> line[i].job.id != line[j].job.id
  }

  predicate Present(line: seq<Task>, id: nat) {
    exists i :: 0 <= i < |line| && line[i].job.id == id
  }

  function Place(line: seq<Task>, id: nat): (i: nat)
    requires Present(line, id)
    ensures i < |line| && line[i].job.id == id
  {
    if line[0].job.id == id then 0
    else
      assert forall i :: 0 < i < |line| ==> line[i] == line[1..][i - 1];
      1 + Place(line[1..], id)
  }

  /** Rounds of `a` minus rounds of `b`, counted from a moment when `a` is next before `b`. */
  function Lead(line: seq<Task>, a: nat, b: nat): int
    requires Present(line, a) && Present(line, b)
  {
    line[Place(line, a)].job.rounds - line[Place(line, b)].job.rounds
    - if Place(line, a) < Place(line, b) then 0 else 1
  }

  lemma PlaceIs(line: seq<Task>, id: nat, i: nat)
    requires Distinct(line) && i < |line| && line[i].job.id == id
    ensures Present(line, id) && Place(line, id) == i
  {
  }

  /** What a step may do to the line: nothing, a new request, the head leaves, the head goes last. */
  ghost predicate LineChange(c: Config, line: seq<Task>, next: seq<Task>) {
    || next == line
    || (exists t :: next == line + [t])
    || (line != [] && next == line[1..])
    || (line != [] && Shaped(line[0]) && next == line[1..] + [Served(c, line[0])])
  }

  lemma LineStep(c: Config, s: State, st: Step)
    requires Enabled(c, s, st) && !c.policy.SJF? && |s.workers| == 1 && TasksInv(c, s)
    ensures |Next(c, s, st).workers| == 1
    ensures LineChange(c, Line(s), Line(Next(c, s, st)))
  {
    if st.Worker().Some? {
      LineStepOfWorker(c, s, st);
    } else if st.Enqueue? {
      LineStepOfEnqueue(c, s, st);
    } else {
      hide Enabled, Next, TasksInv, LineChange;
      LineUntouched(c, s, st);
      SameLine(c, Line(s));
    }
  }

  /** The other steps at most wake the worker. */
  lemma LineUntouched(c: Config, s: State, st: Step)
    requires Enabled(c, s, st) && |s.workers| == 1 && st.Worker().None? && !st.Enqueue?
    ensures |Next(c, s, st).workers| == 1 && Line(Next(c, s, st)) == Line(s)
  {
    hide Served, Shaped, Admissible, MayWake, Chosen, NextOfWorker, WakeOne, WakeAll;
    if st.Parser().Some? {
      hide NextOfOther;
    } else {
      hide NextOfParser;
    }
  }

  lemma SameLine(c: Config, line: seq<Task>)
    ensures LineChange(c, line, line)
  {
  }

  lemma LineStepOfEnqueue(c: Config, s: State, st: Step)
    requires Enabled(c, s, st) && |s.workers| == 1 && st.Enqueue?
    ensures |Next(c, s, st).workers| == 1
    ensures LineChange(c, Line(s), Line(Next(c, s, st)))
  {
    hide NextOfWorker, NextOfOther, Served, Shaped;
    var t := s.parsers[st.p].work.task;
    assert !s.queue.closed ==> Line(Next(c, s, st)) == Line(s) + [t];
  }

  lemma LineStepOfWorker(c: Config, s: State, st: Step)
    requires Enabled(c, s, st) && !c.policy.SJF? && |s.workers| == 1 && TasksInv(c, s)
    requires st.Worker().Some?
    ensures |Next(c, s, st).workers| == 1
    ensures LineChange(c, Line(s), Line(Next(c, s, st)))
  {
    hide Served, Shaped, MayWake, NextOfParser, NextOfOther, LineChange, TasksInv, WakeOne, WakeAll, Chosen;
    FrameOfWorker(c, s, st);
    if st.PutBack? {
      LineStepOfPutBack(c, s, st);
    } else if st.Take? {
      LineStepOfTake(c, s, st);
    } else if st.Finish? || st.Fail? {
      HeadLeaves(c, Line(s), Line(Next(c, s, st)));
    } else {
      assert Line(Next(c, s, st)) == Line(s);
      SameLine(c, Line(s));
    }
  }

  lemma HeadLeaves(c: Config, line: seq<Task>, next: seq<Task>)
    requires line != [] && next == line[1..]
    ensures LineChange(c, line, next)
  {
  }

  lemma LineStepOfTake(c: Config, s: State, st: Step)
    requires Enabled(c, s, st) && !c.policy.SJF? && |s.workers| == 1 && st.Take?
    ensures |Next(c, s, st).workers| == 1
    ensures LineChange(c, Line(s), Line(Next(c, s, st)))
  {
    hide NextOfParser, NextOfOther, Served, Shaped;
    assert s.queue.items == [s.queue.items[0]] + s.queue.items[1..];
    assert s.queue.items[..0] + s.queue.items[0 + 1..] == s.queue.items[1..];
    assert Line(Next(c, s, st)) == Line(s);
  }

  lemma LineStepOfPutBack(c: Config, s: State, st: Step)
    requires Enabled(c, s, st) && |s.workers| == 1 && st.PutBack?
    ensures |Next(c, s, st).workers| == 1
    ensures LineChange(c, Line(s), Line(Next(c, s, st)))
  {
    hide NextOfParser, NextOfOther, Served, Shaped;
    assert Line(s)[1..] == s.queue.items;
    assert Line(Next(c, s, st)) == Line(s)[1..] + [Served(c, Line(s)[0])];
  }

  predicate SameRequest(x: Task, y: Task) {
    x.body == y.body && x.job.op == y.job.op && x.job.total == y.job.total
  }

  /** While both requests stay, their lead does not change. */
  lemma LeadStep(line: seq<Task>, next: seq<Task>, c: Config, a: nat, b: nat)
    requires a != b && Distinct(line) && Distinct(next)
    requires Present(line, a) && Present(line, b) && Present(next, a) && Present(next, b)
    requires LineChange(c, line, next)
    ensures Lead(next, a, b) == Lead(line, a, b)
    ensures SameRequest(next[Place(next, a)], line[Place(line, a)])
    ensures SameRequest(next[Place(next, b)], line[Place(line, b)])
  {
    hide Shaped, Place, Served, Lead, Present, Distinct;
    if next == line {
      SameLead(line, a, b);
    } else if exists t :: next == line + [t] {
      AppendedLead(line, next, a, b);
    } else if next == line[1..] {
      ShiftedLead(line, next, a, b);
    } else {
      RotatedLead(line, next, Served(c, line[0]), a, b);
    }
  }

  /** Lead and requests of both ids are the same before and after. */
  ghost predicate SameStanding(line: seq<Task>, next: seq<Task>, a: nat, b: nat) {
    && Present(line, a) && Present(line, b) && Present(next, a) && Present(next, b)
    && Lead(next, a, b) == Lead(line, a, b)
    && SameRequest(next[Place(next, a)], line[Place(line, a)])
    && SameRequest(next[Place(next, b)], line[Place(line, b)])
  }

  lemma SameLead(line: seq<Task>, a: nat, b: nat)
    requires Present(line, a) && Present(line, b)
    ensures SameStanding(line, line, a, b)
  {
  }

  lemma AppendedLead(line: seq<Task>, next: seq<Task>, a: nat, b: nat)
    requires Distinct(next) && Present(line, a) && Present(line, b)
    requires exists t :: next == line + [t]
    ensures SameStanding(line, next, a, b)
  {
    hide Place;
    PlaceIs(next, a, Place(line, a));
    PlaceIs(next, b, Place(line, b));
  }

  lemma ShiftedLead(line: seq<Task>, next: seq<Task>, a: nat, b: nat)
    requires line != [] && next == line[1..] && Distinct(line) && Present(next, a) && Present(next, b)
    ensures SameStanding(line, next, a, b)
  {
    hide Place, Distinct, Present;
    Shifted(line, next, a);
    Shifted(line, next, b);
  }

  lemma RotatedLead(line: seq<Task>, next: seq<Task>, last: Task, a: nat, b: nat)
    requires a != b && line != [] && next == line[1..] + [last]
    requires last.job.id == line[0].job.id && SameRequest(last, line[0]) && last.job.rounds == line[0].job.rounds + 1
    requires Distinct(line) && Distinct(next) && Present(line, a) && Present(line, b)
    ensures SameStanding(line, next, a, b)
  {
    hide Place, Distinct, Present;
    Rotated(line, next, last, a);
    Rotated(line, next, last, b);
    PlacesDiffer(line, a, b);
  }

  lemma PlacesDiffer(line: seq<Task>, a: nat, b: nat)
    requires a != b && Present(line, a) && Present(line, b)
    ensures Place(line, a) != Place(line, b)
    ensures Place(line, a) < |line| && Place(line, b) < |line|
  {
  }

  lemma Shifted(line: seq<Task>, next: seq<Task>, id: nat)
    requires line != [] && next == line[1..] && Distinct(line) && Present(next, id)
    ensures Distinct(next) && Present(line, id)
    ensures Place(line, id) == Place(next, id) + 1 && next[Place(next, id)] == line[Place(line, id)]
  {
    hide Place;
    var k := Place(next, id);
    PlaceIs(line, id, k + 1);
  }

  lemma Rotated(line: seq<Task>, next: seq<Task>, last: Task, id: nat)
    requires line != [] && next == line[1..] + [last] && last.job.id == line[0].job.id
    requires Distinct(line) && Distinct(next) && Present(line, id)
    ensures Present(next, id)
    ensures var i := Place(line, id);
            if i > 0 then Place(next, id) == i - 1 && next[i - 1] == line[i]
            else Place(next, id) == |next| - 1
  {
    hide Place;
    var i := Place(line, id);
    PlaceIs(next, id, if i > 0 then i - 1 else |next| - 1);
  }

  /** Both requests are queued or in service before and after every step of the run. */
  predicate Stay(c: Config, s: State, steps: seq<Step>, a: nat, b: nat)
    requires IsRun(c, s, steps)
    decreases |steps|
  {
    && |s.workers| == 1 && Present(Line(s), a) && Present(Line(s), b)
    && (steps == [] || Stay(c, Next(c, s, steps[0]), steps[1..], a, b))
  }

  lemma {:induction false} TwiceInLine(line: seq<Task>, i: nat, j: nat)
    requires i < j < |line| && line[i].job.id == line[j].job.id
    ensures Times(line, line[i].job.id) >= 2
  {
    var id := line[i].job.id;
    assert line == line[..j] + line[j..];
    TimesAppend(line[..j], line[j..], id);
    assert line[..j] == line[..i] + line[i..j];
    TimesAppend(line[..i], line[i..j], id);
  }

  lemma OnceInLine(c: Config, s: State, id: nat)
    requires Inv(c, s) && |s.workers| == 1
    ensures Times(Line(s), id) <= 1
  {
    hide IntakeInv, ShutdownInv, WorkInv, TasksInv;
    assert IdInv(s, id);
    var served := if s.workers[0].Busy? then [s.workers[0].work] else [];
    TimesAppend(served, s.queue.items, id);
    assert s.workers == [s.workers[0]];
    SumOne(s.workers[0], Holding(IdOfTask, id));
    if s.workers[0].Busy? {
      SumOne(s.workers[0].work, TaskWithId(id));
    }
    assert Holders(s.workers, IdOfTask, id) == Times(served, id);
  }

  lemma LineIsDistinct(c: Config, s: State)
    requires Inv(c, s) && |s.workers| == 1
    ensures Distinct(Line(s))
  {
    hide Inv, Line, Times;
    var line := Line(s);
    forall i, j | 0 <= i < j < |line|
      ensures line[i].job.id != line[j].job.id
    {
      OnceInLine(c, s, line[i].job.id);
      if line[i].job.id == line[j].job.id {
        TwiceInLine(line, i, j);
      }
    }
  }

  lemma {:induction false} LeadIsConstant(c: Config, s: State, steps: seq<Step>, a: nat, b: nat)
    requires Inv(c, s) && IsRun(c, s, steps) && !c.policy.SJF? && a != b
    requires Stay(c, s, steps, a, b)
    ensures var e := After(c, s, steps);
            && Inv(c, e) && |e.workers| == 1 && Present(Line(e), a) && Present(Line(e), b)
            && Lead(Line(e), a, b) == Lead(Line(s), a, b)
            && SameRequest(Line(e)[Place(Line(e), a)], Line(s)[Place(Line(s), a)])
            && SameRequest(Line(e)[Place(Line(e), b)], Line(s)[Place(Line(s), b)])
    decreases |steps|
  {
    hide Enabled, Next, IntakeInv, ShutdownInv, WorkInv, TasksInv, IdInv, Line, Present, Place, Lead;
    if steps != [] {
      var n := Next(c, s, steps[0]);
      StepKeeps(c, s, steps[0]);
      LineStep(c, s, steps[0]);
      LineIsDistinct(c, s);
      LineIsDistinct(c, n);
      assert Stay(c, n, steps[1..], a, b);
      LeadStep(Line(s), Line(n), c, a, b);
      LeadIsConstant(c, n, steps[1..], a, b);
    }
  }

  /** The request with the given id, while it is queued or in service. */
  function TaskOf(s: State, id: nat): Task
    requires |s.workers| == 1 && Present(Line(s), id)
  {
    Line(s)[Place(Line(s), id)]
  }

  /**
   * With one worker, over any stretch in which two requests both stay, the numbers of rounds
   * they are given differ by at most one.
   */
  lemma FairRounds(c: Config, s: State, steps: seq<Step>, a: nat, b: nat)
    requires Inv(c, s) && IsRun(c, s, steps) && !c.policy.SJF? && a != b
    requires Stay(c, s, steps, a, b)
    ensures var e := After(c, s, steps);
            && |e.workers| == 1 && Present(Line(e), a) && Present(Line(e), b)
            && -1 <= (TaskOf(e, a).job.rounds - TaskOf(s, a).job.rounds)
                     - (TaskOf(e, b).job.rounds - TaskOf(s, b).job.rounds) <= 1
            && SameRequest(TaskOf(e, a), TaskOf(s, a)) && SameRequest(TaskOf(e, b), TaskOf(s, b))
  {
    hide Inv, Place, Present, Line;
    LeadIsConstant(c, s, steps, a, b);
  }

  // ----- Bytes under DRR -----

  /**
   * A request waiting between two DRR rounds is at most one line behind its granted quanta; an
   * upload is not behind at all.
   */
  lemma DeficitBound(c: Config, t: Task, longest: nat)
    requires c.policy.DRR? && c.Valid()
    requires Waiting(c, t) && (t.job.op.GET? ==> LinesAtMost(t.body, longest))
    ensures t.job.offset + t.job.deficit == t.job.rounds * c.quantum
    ensures t.job.deficit <= longest
  {
    var j0, k := Start(t.job), t.job.rounds;
    if k > 0 {
      hide GetRound, PutRound, StreamOf, Start;
      if t.job.op.GET? {
        GetRunMonotone(c, t.body, j0, k - 1, k);
        Drr.EveryFile(c, t.body, j0, k);
        LineBound(t, k * c.quantum, longest);
      } else {
        assert PutRun(c, j0, k - 1).offset <= PutRun(c, j0, k).offset;
        Drr.PutClosedForm(c, j0, k);
      }
    } else {
      hide StreamOf;
    }
  }

  lemma LineBound(t: Task, allowance: nat, longest: nat)
    requires Drr.At(t.body, t.job, allowance) && t.job.offset < |t.body| && LinesAtMost(t.body, longest)
    ensures t.job.deficit <= longest
  {
    Drr.DeficitBelowNextLine(t.body, t.job, allowance);
    assert Boundary(t.body, t.job.offset);
  }

  lemma TaskIsWaiting(c: Config, s: State, id: nat)
    requires TasksInv(c, s) && |s.workers| == 1 && Present(Line(s), id)
    ensures Waiting(c, TaskOf(s, id))
  {
    hide Waiting, Complete, Admissible, Place;
  }

  /** Bytes over a stretch, from the quanta granted in it and the deficits at its two ends. */
  lemma BytesFromRounds(q: nat, ra: int, rb: int, bytesA: int, bytesB: int, da: int, db: int, la: nat, lb: nat)
    requires -1 <= ra - rb <= 1 && 0 <= da + la <= 2 * la && 0 <= db + lb <= 2 * lb
    requires bytesA + da == ra * q && bytesB + db == rb * q
    ensures -(q + la + lb) <= bytesA - bytesB <= q + la + lb
  {
    assert ra * q - rb * q == (ra - rb) * q;
  }

  /**
   * Under DRR with one worker the bytes served to two requests that both stay differ by at most
   * the quantum plus the longest line of each; an upload counts as having no lines.
   */
  lemma FairBytes(c: Config, s: State, steps: seq<Step>, a: nat, b: nat, longestA: nat, longestB: nat)
    requires Inv(c, s) && IsRun(c, s, steps) && c.policy.DRR? && c.Valid() && a != b
    requires Stay(c, s, steps, a, b)
    requires WithinLines(TaskOf(s, a), longestA) && WithinLines(TaskOf(s, b), longestB)
    ensures var e := After(c, s, steps);
            && |e.workers| == 1 && Present(Line(e), a) && Present(Line(e), b)
            && var servedA := TaskOf(e, a).job.offset - TaskOf(s, a).job.offset;
               var servedB := TaskOf(e, b).job.offset - TaskOf(s, b).job.offset;
               -(c.quantum + longestA + longestB) <= servedA - servedB <= c.quantum + longestA + longestB
  {
    hide *;
    var e := After(c, s, steps);
    FairRounds(c, s, steps, a, b);
    FairEnds(c, s, steps, a, b);
    var a0, a1, b0, b1 := TaskOf(s, a), TaskOf(e, a), TaskOf(s, b), TaskOf(e, b);
    EndsWithin(c, a0, a1, longestA);
    EndsWithin(c, b0, b1, longestB);
    MulDifference(a1.job.rounds, a0.job.rounds, c.quantum);
    MulDifference(b1.job.rounds, b0.job.rounds, c.quantum);
    BytesFromRounds(c.quantum, a1.job.rounds - a0.job.rounds, b1.job.rounds - b0.job.rounds,
                    a1.job.offset - a0.job.offset, b1.job.offset - b0.job.offset,
                    a1.job.deficit - a0.job.deficit, b1.job.deficit - b0.job.deficit, longestA, longestB);
  }

  /** If the request is a GET, its lines are at most `longest`. */
  ghost predicate WithinLines(t: Task, longest: nat) {
    t.job.op.GET? ==> LinesAtMost(t.body, longest)
  }

  lemma MulDifference(m: nat, n: nat, q: nat)
    ensures (m - n) * q == m * q - n * q
  {
  }

  /** Both ends of the stretch satisfy the DRR closed form. */
  lemma EndsWithin(c: Config, x: Task, y: Task, longest: nat)
    requires c.policy.DRR? && c.Valid() && WithinLines(x, longest)
    requires Waiting(c, x) && Waiting(c, y) && SameRequest(y, x)
    ensures x.job.offset + x.job.deficit == x.job.rounds * c.quantum && x.job.deficit <= longest
    ensures y.job.offset + y.job.deficit == y.job.rounds * c.quantum && y.job.deficit <= longest
  {
    hide Waiting, LinesAtMost;
    DeficitBound(c, x, longest);
    DeficitBound(c, y, longest);
  }

  lemma FairEnds(c: Config, s: State, steps: seq<Step>, a: nat, b: nat)
    requires Inv(c, s) && IsRun(c, s, steps) && !c.policy.SJF? && a != b && Stay(c, s, steps, a, b)
    ensures var e := After(c, s, steps);
            && |s.workers| == 1 && |e.workers| == 1
            && Present(Line(s), a) && Present(Line(s), b) && Present(Line(e), a) && Present(Line(e), b)
            && Waiting(c, TaskOf(s, a)) && Waiting(c, TaskOf(s, b))
            && Waiting(c, TaskOf(e, a)) && Waiting(c, TaskOf(e, b))
  {
    hide TasksInv, IntakeInv, ShutdownInv, WorkInv, IdInv, Waiting, Line, Present, Place, Lead;
    var e := After(c, s, steps);
    LeadIsConstant(c, s, steps, a, b);
    TaskIsWaiting(c, s, a);
    TaskIsWaiting(c, s, b);
    TaskIsWaiting(c, e, a);
    TaskIsWaiting(c, e, b);
  }
}
