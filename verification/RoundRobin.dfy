/** Round robin on GET: accounting, round bound, greedy optimality, comparison with DRR. */
module RoundRobin {
  import opened Common
  import opened Lines
  import opened Rounds
  import Drr

  /** Where an RR round that starts at `off` with quantum `q` ends. */
  function Next(f: Bytes, q: nat, off: nat): (p: nat)
    requires off < |f| && q > 0
    ensures off < p <= |f| && Boundary(f, p)
    ensures p - off <= q || p == LineEnd(f, off)
  {
    if |f| - off <= q then |f|
    else if Reach(f, off, off + q) > off then Reach(f, off, off + q)
    else LineEnd(f, off)
  }

  /** A round never stops while a further whole line would still have fitted. */
  lemma NextIsMaximal(f: Bytes, q: nat, off: nat, p: nat)
    requires off < |f| && q > 0
    requires off < p <= |f| && Boundary(f, p)
    requires p <= off + q || p == LineEnd(f, off)
    ensures p <= Next(f, q, off)
  {
  }

  /** What one RR round does to the request, when it starts at a line boundary. */
  lemma Round(c: Config, f: Bytes, j: Job)
    requires c.policy.RR? && c.Valid()
    requires j.total == |f| && j.offset < |f| && Boundary(f, j.offset)
    ensures var r, q, e := GetRound(c, f, j), c.quantum, LineEnd(f, j.offset);
            && r.offset == Next(f, q, j.offset)
            && r.deficit == j.deficit
            && (e - j.offset > q && |f| - j.offset > q ==> r.offset == e && r.a14 == j.a14 + 1)
            && (e - j.offset <= q || |f| - j.offset <= q ==> r.offset <= j.offset + q && r.a14 == j.a14)
            && (r.offset < |f| ==>
                  r.forfeited == j.forfeited + if r.offset < j.offset + q then j.offset + q - r.offset else 0)
  {
    if |f| - j.offset > c.quantum {
      assert Boundary(f, LineEnd(f, j.offset));
    }
  }

  /** Every round that takes place starts on a line boundary inside the file. */
  lemma {:induction false} RunOnBoundaries(c: Config, f: Bytes, j: Job, k: nat)
    requires c.policy.RR? && c.Valid() && j.Fresh() && j.total == |f| > 0
    requires GetHappens(c, f, j, k)
    ensures Boundary(f, GetRun(c, f, j, k).offset)
    ensures k > 0 ==>
              var before := GetRun(c, f, j, k - 1);
              && before.offset < |f| && Boundary(f, before.offset)
              && GetHappens(c, f, j, k - 1)
              && GetRun(c, f, j, k).offset == Next(f, c.quantum, before.offset)
  {
    hide GetRound;
    if k > 0 {
      if k > 1 {
        GetRunMonotone(c, f, j, k - 2, k - 1);
      }
      RunOnBoundaries(c, f, j, k - 1);
      Round(c, f, GetRun(c, f, j, k - 1));
    }
  }

  /** Round `i` (counted from 0) sent one line longer than the quantum. */
  predicate Overran(c: Config, f: Bytes, j: Job, i: nat)
    requires j.total == |f| && j.offset <= j.total
  {
    var o := GetRun(c, f, j, i).offset;
    o < |f| && LineEnd(f, o) - o > c.quantum
  }

  /** Bytes sent beyond the quantum in the first `k` rounds. */
  function Overrun(c: Config, f: Bytes, j: Job, k: nat): nat
    requires j.total == |f| && j.offset <= j.total
  {
    if k == 0 then 0
    else
      var o := GetRun(c, f, j, k - 1).offset;
      Overrun(c, f, j, k - 1)
      + if Overran(c, f, j, k - 1) then LineEnd(f, o) - o - c.quantum else 0
  }

  ghost function OverrunRounds(c: Config, f: Bytes, j: Job, k: nat): set<nat>
    requires j.total == |f| && j.offset <= j.total
  {
    set i: nat | i < k && Overran(c, f, j, i)
  }

  lemma OverrunRoundsStep(c: Config, f: Bytes, j: Job, k: nat)
    requires j.total == |f| && j.offset <= j.total
    ensures |OverrunRounds(c, f, j, k + 1)|
            == |OverrunRounds(c, f, j, k)| + if Overran(c, f, j, k) then 1 else 0
  {
    hide Overran;
    var now, before := OverrunRounds(c, f, j, k + 1), OverrunRounds(c, f, j, k);
    if Overran(c, f, j, k) {
      assert now == before + {k};
    } else {
      assert now == before;
    }
  }

  lemma AccountingStep(c: Config, f: Bytes, j: Job, k: nat)
    requires c.policy.RR? && c.Valid() && j.Fresh() && j.total == |f| > 0
    requires GetRun(c, f, j, k + 1).offset < |f|
    ensures var r, before := GetRun(c, f, j, k + 1), GetRun(c, f, j, k);
            && r.offset + r.forfeited + Overrun(c, f, j, k)
               == before.offset + before.forfeited + c.quantum + Overrun(c, f, j, k + 1)
            && r.a14 == before.a14 + (if Overran(c, f, j, k) then 1 else 0)
            && r.deficit == before.deficit
  {
    hide GetRound;
    GetRunMonotone(c, f, j, k, k + 1);
    RunOnBoundaries(c, f, j, k + 1);
    Round(c, f, GetRun(c, f, j, k));
  }

  lemma AccountingStart(c: Config, f: Bytes, j: Job)
    requires j.Fresh() && j.total == |f|
    ensures GetRun(c, f, j, 0) == j && j.offset == j.forfeited == j.a14 == j.rounds == j.deficit == 0
    ensures Overrun(c, f, j, 0) == 0 && OverrunRounds(c, f, j, 0) == {}
  {
  }

  /**
   * After every round that puts the request back: bytes sent plus bytes forfeited are the
   * quanta granted plus the overruns, which happened in exactly `a14` rounds.
   */
  lemma {:induction false} Accounting(c: Config, f: Bytes, j: Job, k: nat)
    requires c.policy.RR? && c.Valid() && j.Fresh() && j.total == |f| > 0
    requires GetRun(c, f, j, k).offset < |f|
    ensures var r := GetRun(c, f, j, k);
            && r.offset + r.forfeited == k * c.quantum + Overrun(c, f, j, k)
            && r.a14 == |OverrunRounds(c, f, j, k)|
            && r.rounds == k && r.deficit == 0
  {
    hide *;
    if k == 0 {
      AccountingStart(c, f, j);
    } else {
      GetRunMonotone(c, f, j, k - 1, k);
      Accounting(c, f, j, k - 1);
      AccountingStep(c, f, j, k - 1);
      MulMonotone(k - 1, k, c.quantum);
      OverrunRoundsStep(c, f, j, k - 1);
    }
  }

  /**
   * A round forfeits less than the line that did not fit; over the whole request the
   * forfeits stay below the file size, so the 64-bit counter cannot overflow.
   */
  lemma {:induction false} ForfeitBounds(c: Config, f: Bytes, j: Job, k: nat)
    requires c.policy.RR? && c.Valid() && j.Fresh() && j.total == |f| > 0
    requires k > 0 && GetRun(c, f, j, k).offset < |f|
    ensures var r, before := GetRun(c, f, j, k), GetRun(c, f, j, k - 1);
            && before.forfeited <= r.forfeited
            && r.forfeited - before.forfeited < LineEnd(f, r.offset) - r.offset
            && r.forfeited < LineEnd(f, r.offset)
  {
    hide GetRound;
    var r, before := GetRun(c, f, j, k), GetRun(c, f, j, k - 1);
    GetRunMonotone(c, f, j, k - 1, k);
    RunOnBoundaries(c, f, j, k);
    Round(c, f, before);
    if r.offset < before.offset + c.quantum && LineEnd(f, r.offset) <= before.offset + c.quantum {
      NextIsMaximal(f, c.quantum, before.offset, LineEnd(f, r.offset));
    }
    if k > 1 {
      ForfeitBounds(c, f, j, k - 1);
      NextIsMaximal(f, c.quantum, before.offset, LineEnd(f, before.offset));
    }
  }

  /** Any two consecutive rounds together send more than the quantum. */
  lemma TwoRounds(c: Config, f: Bytes, j: Job, k: nat)
    requires c.policy.RR? && c.Valid() && j.Fresh() && j.total == |f| > 0
    requires GetHappens(c, f, j, k + 2)
    ensures GetRun(c, f, j, k + 2).offset - GetRun(c, f, j, k).offset > c.quantum
  {
    hide GetRound;
    var a, b := GetRun(c, f, j, k).offset, GetRun(c, f, j, k + 1).offset;
    GetRunMonotone(c, f, j, k, k + 1);
    RunOnBoundaries(c, f, j, k + 2);
    RunOnBoundaries(c, f, j, k + 1);
    var e := LineEnd(f, b);
    NextIsMaximal(f, c.quantum, b, e);
    if e <= a + c.quantum {
      NextIsMaximal(f, c.quantum, a, e);
    }
  }

  lemma {:induction false} RunLength(c: Config, f: Bytes, j: Job, k: nat)
    requires c.policy.RR? && c.Valid() && j.Fresh() && j.total == |f| > 0
    requires GetHappens(c, f, j, k)
    ensures (k / 2) * (c.quantum + 1) <= GetRun(c, f, j, k).offset
  {
    hide GetRound;
    if k >= 2 {
      RunOnBoundaries(c, f, j, k);
      RunOnBoundaries(c, f, j, k - 1);
      RunLength(c, f, j, k - 2);
      TwoRounds(c, f, j, k - 2);
      assert k / 2 == (k - 2) / 2 + 1;
      MulMonotone((k - 2) / 2, k / 2, c.quantum + 1);
    }
  }

  /** Every RR GET ends, in `r` rounds with `floor(r / 2) * (Q + 1) <= total`. */
  lemma Finishes(c: Config, f: Bytes, j: Job) returns (r: nat)
    requires c.policy.RR? && c.Valid() && j.Fresh() && j.total == |f| > 0
    ensures GetTakes(c, f, j, r)
    ensures (r / 2) * (c.quantum + 1) <= |f|
  {
    hide GetRound;
    r := 1;
    while GetRun(c, f, j, r).offset < |f|
      invariant r > 0 && GetHappens(c, f, j, r)
      decreases |f| - GetRun(c, f, j, r).offset
    {
      RunOnBoundaries(c, f, j, r + 1);
      r := r + 1;
    }
    RunLength(c, f, j, r);
  }

  /**
   * A way to serve the file in rounds: consecutive pieces cut at line boundaries, each at most
   * `q` bytes or a single line.
   */
  ghost predicate IsSplit(f: Bytes, q: nat, cuts: seq<nat>) {
    && |cuts| > 0 && cuts[0] == 0 && cuts[|cuts| - 1] == |f|
    && (forall i :: 0 <= i < |cuts| ==> cuts[i] <= |f| && Boundary(f, cuts[i]))
    && (forall i :: 0 <= i < |cuts| - 1 ==> IsPiece(f, q, cuts[i], cuts[i + 1]))
  }

  ghost predicate IsPiece(f: Bytes, q: nat, from: nat, to: nat) {
    && from < |f|
    && from < to
    && (to - from <= q || to == LineEnd(f, from))
  }

  ghost function Offsets(c: Config, f: Bytes, j: Job, r: nat): (s: seq<nat>)
    requires j.total == |f| && j.offset <= j.total
    ensures |s| == r + 1 && forall k :: 0 <= k <= r ==> s[k] == GetRun(c, f, j, k).offset
  {
    seq(r + 1, (k: nat) => GetRun(c, f, j, k).offset)
  }

  /** The offsets of a run are such a split, with one piece a round. */
  lemma RunIsSplit(c: Config, f: Bytes, j: Job, r: nat)
    requires c.policy.RR? && c.Valid() && j.Fresh() && j.total == |f| > 0
    requires GetTakes(c, f, j, r)
    ensures IsSplit(f, c.quantum, Offsets(c, f, j, r))
  {
    hide GetRound, Offsets, Boundary, LineEnd, Next;
    var cuts := Offsets(c, f, j, r);
    forall i | 0 <= i < |cuts|
      ensures Boundary(f, cuts[i])
      ensures 0 < i ==> IsPiece(f, c.quantum, cuts[i - 1], cuts[i])
    {
      GetTakesUnique(c, f, j, r, i);
      RunOnBoundaries(c, f, j, i);
    }
    assert cuts[0] == GetRun(c, f, j, 0).offset;
    forall i | 0 <= i < |cuts| - 1
      ensures IsPiece(f, c.quantum, cuts[i], cuts[i + 1])
    {
      assert IsPiece(f, c.quantum, cuts[(i + 1) - 1], cuts[i + 1]);
    }
  }

  /** The run is never behind any split. */
  lemma {:induction false} RunStaysAhead(c: Config, f: Bytes, j: Job, r: nat, cuts: seq<nat>, k: nat)
    requires c.policy.RR? && c.Valid() && j.Fresh() && j.total == |f| > 0
    requires GetTakes(c, f, j, r) && k <= r
    requires IsSplit(f, c.quantum, cuts) && k < |cuts|
    ensures cuts[k] <= GetRun(c, f, j, k).offset
  {
    hide GetRound;
    if k > 0 {
      RunStaysAhead(c, f, j, r, cuts, k - 1);
      GetTakesUnique(c, f, j, r, k);
      RunOnBoundaries(c, f, j, k);
      var from, before := cuts[k - 1], GetRun(c, f, j, k - 1).offset;
      assert IsPiece(f, c.quantum, from, cuts[(k - 1) + 1]);
      if before < cuts[k] {
        NextIsMaximal(f, c.quantum, before, cuts[k]);
      }
    }
  }

  /** Greedy line selection is optimal: no split of the file needs fewer rounds. */
  lemma GreedyIsOptimal(c: Config, f: Bytes, j: Job, r: nat, cuts: seq<nat>)
    requires c.policy.RR? && c.Valid() && j.Fresh() && j.total == |f| > 0
    requires GetTakes(c, f, j, r) && IsSplit(f, c.quantum, cuts)
    ensures r <= |cuts| - 1
  {
    hide GetRound;
    var n := |cuts| - 1;
    if n < r {
      RunStaysAhead(c, f, j, r, cuts, n);
      GetRunMonotone(c, f, j, n, r - 1);
    }
  }

  /**
   * DRR against RR, round by round, on the same file: DRR is at least as far exactly when
   * RR has not been let ahead of its granted quanta, that is when `offset <= k * Q`.
   */
  lemma DrrVersusRr(rr: Config, drr: Config, f: Bytes, j: Job, k: nat)
    requires rr.policy.RR? && drr.policy.DRR? && rr.quantum == drr.quantum
    requires rr.Valid() && drr.Valid() && Drr.Fits(|f|, drr.quantum)
    requires j.Fresh() && j.total == |f| > 0
    requires GetHappens(rr, f, j, k) && GetHappens(drr, f, j, k)
    ensures GetRun(rr, f, j, k).offset <= GetRun(drr, f, j, k).offset <==>
            GetRun(rr, f, j, k).offset <= k * rr.quantum
  {
    hide GetRound;
    RunOnBoundaries(rr, f, j, k);
    Drr.GetClosedForm(drr, f, j, k);
  }

  /** Without lines longer than the quantum RR never overruns. */
  lemma {:induction false} WithinQuanta(c: Config, f: Bytes, j: Job, k: nat)
    requires c.policy.RR? && c.Valid() && j.Fresh() && j.total == |f| > 0
    requires LinesAtMost(f, c.quantum) && GetHappens(c, f, j, k)
    ensures GetRun(c, f, j, k).offset <= k * c.quantum
  {
    hide GetRound, Next, LinesAtMost, Boundary;
    if k > 0 {
      RunOnBoundaries(c, f, j, k);
      WithinQuanta(c, f, j, k - 1);
      MulMonotone(k - 1, k, c.quantum);
      NextWithin(f, c.quantum, GetRun(c, f, j, k - 1).offset);
    }
  }

  lemma NextWithin(f: Bytes, q: nat, off: nat)
    requires off < |f| && q > 0 && Boundary(f, off) && LinesAtMost(f, q)
    ensures Next(f, q, off) <= off + q
  {
  }

  /**
   * If no line is longer than the quantum, DRR is at least as far as RR after every round RR
   * takes, and needs no more rounds.
   */
  lemma DrrDominatesRr(rr: Config, drr: Config, f: Bytes, j: Job, r: nat, k: nat)
    requires rr.policy.RR? && drr.policy.DRR? && rr.quantum == drr.quantum
    requires rr.Valid() && drr.Valid() && Drr.Fits(|f|, drr.quantum)
    requires j.Fresh() && j.total == |f| > 0 && LinesAtMost(f, rr.quantum)
    requires GetTakes(rr, f, j, r) && k <= r
    ensures GetRun(rr, f, j, k).offset <= GetRun(drr, f, j, k).offset
    ensures GetTakes(drr, f, j, CeilDiv(|f|, drr.quantum))
    ensures CeilDiv(|f|, drr.quantum) <= r
  {
    hide GetRound, GetRun;
    WithinQuanta(rr, f, j, r);
    var m := CeilDiv(|f|, drr.quantum);
    Drr.MulVersusCeil(|f|, drr.quantum, r);
    CeilDivBounds(|f|, drr.quantum);
    Drr.GetRoundCount(drr, f, j, m);
    GetTakesUnique(drr, f, j, m, k);
    GetTakesUnique(rr, f, j, r, k);
    if k <= m {
      WithinQuanta(rr, f, j, k);
      DrrVersusRr(rr, drr, f, j, k);
    } else {
      GetRunMonotone(drr, f, j, m, k);
    }
  }

  // ----- Uploads -----

  lemma PutRound(c: Config, j: Job)
    requires c.policy.RR? && c.Valid() && j.offset < j.total
    ensures var r := Rounds.PutRound(c, j);
            && r.offset == Min(j.offset + c.quantum, j.total)
            && r.deficit == j.deficit && r.forfeited == j.forfeited && r.a14 == j.a14
  {
    hide StagingName;
  }

  /** An RR upload advances by exactly `Q` bytes a round, and never forfeits or overruns anything. */
  lemma {:induction false} PutClosedForm(c: Config, j: Job, k: nat)
    requires c.policy.RR? && c.Valid() && j.Fresh() && j.total > 0
    requires PutHappens(c, j, k)
    ensures var r := PutRun(c, j, k);
            && k * c.quantum >= 0 && r.offset == Min(k * c.quantum, j.total)
            && r.deficit == r.forfeited == r.a14 == 0
  {
    hide Rounds.PutRound;
    if k > 0 {
      if k > 1 {
        assert PutRun(c, j, k - 2).offset <= PutRun(c, j, k - 1).offset;
      }
      PutClosedForm(c, j, k - 1);
      MulMonotone(k - 1, k, c.quantum);
      PutRound(c, PutRun(c, j, k - 1));
    }
  }

  /** So it takes exactly `CeilDiv(total, Q)` rounds, as under DRR. */
  lemma {:induction false} PutRoundCount(c: Config, j: Job, k: nat)
    requires c.policy.RR? && c.Valid() && j.Fresh() && j.total > 0
    ensures PutHappens(c, j, k) <==> k <= CeilDiv(j.total, c.quantum)
    ensures PutHappens(c, j, k) ==>
              (PutRun(c, j, k).offset == j.total <==> k == CeilDiv(j.total, c.quantum))
  {
    hide Rounds.PutRound;
    var q := c.quantum;
    if k > 1 {
      PutRoundCount(c, j, k - 1);
      if PutHappens(c, j, k - 1) {
        PutClosedForm(c, j, k - 1);
        Drr.MulVersusCeil(j.total, q, k - 1);
      } else {
        assert PutRun(c, j, k - 2).offset <= PutRun(c, j, k - 1).offset;
      }
    }
    if PutHappens(c, j, k) {
      PutClosedForm(c, j, k);
      Drr.MulVersusCeil(j.total, q, k);
    }
  }

  // ----- When RR is ahead -----

  /** A file of `n` bytes whose first line has `first` bytes and whose other lines are empty. */
  function LongFirstLine(n: nat, first: nat): (f: Bytes)
    requires 0 < first <= n
    ensures |f| == n
    ensures forall i :: 0 <= i < n ==> (f[i] == '\n' <==> first - 1 <= i)
  {
    seq(n, i requires 0 <= i < n => if i < first - 1 then 'x' else '\n')
  }

  lemma LongFirstLineLines(n: nat, first: nat)
    requires 0 < first <= n
    ensures LineEnd(LongFirstLine(n, first), 0) == first
    ensures LinesAtMost(LongFirstLine(n, first), first)
  {
    var f := LongFirstLine(n, first);
    assert Boundary(f, first);
    assert forall p :: 0 < p < first ==> !Boundary(f, p);
    forall p | 0 <= p < n && Boundary(f, p)
      ensures LineEnd(f, p) - p <= first
    {
      if p > 0 {
        assert Boundary(f, p + 1);
      }
    }
  }

  /** Under DRR a first line longer than the quantum is not sent in the first round. */
  lemma LongLineWaits(c: Config, f: Bytes, j: Job)
    requires c.policy.DRR? && c.Valid() && j.Fresh() && j.total == |f| > 0
    requires LineEnd(f, 0) > c.quantum
    ensures GetRound(c, f, j).offset == 0
  {
    assert Reach(f, 0, c.quantum) == 0;
  }

  /** RR ahead of DRR: a first line longer than the quantum goes out at once under RR only. */
  lemma RrAhead(rr: Config, drr: Config, j: Job, first: nat)
    requires rr.policy.RR? && drr.policy.DRR? && rr.quantum == drr.quantum
    requires rr.Valid() && drr.Valid() && j.Fresh()
    requires rr.quantum < first <= j.total
    ensures var f := LongFirstLine(j.total, first);
            && GetRun(rr, f, j, 1).offset == first
            && GetRun(drr, f, j, 1).offset == 0
  {
    hide GetRound, Next;
    var f := LongFirstLine(j.total, first);
    LongFirstLineLines(j.total, first);
    assert GetRun(rr, f, j, 0) == j && GetRun(drr, f, j, 0) == j;
    Round(rr, f, j);
    LongLineWaits(drr, f, j);
  }

  /** On this file RR is never ahead of DRR after a round that RR takes. */
  ghost predicate NeverAhead(rr: Config, drr: Config, f: Bytes, j: Job)
    requires j.total == |f| && j.offset <= j.total
  {
    forall k: nat :: GetHappens(rr, f, j, k) ==> GetRun(rr, f, j, k).offset <= GetRun(drr, f, j, k).offset
  }

  lemma ShortLinesNeverAhead(rr: Config, drr: Config, f: Bytes, j: Job)
    requires rr.policy.RR? && drr.policy.DRR? && rr.quantum == drr.quantum
    requires rr.Valid() && drr.Valid() && Drr.Fits(|f|, drr.quantum)
    requires j.Fresh() && j.total == |f| && LinesAtMost(f, rr.quantum)
    ensures NeverAhead(rr, drr, f, j)
  {
    hide GetRound, GetRun, LinesAtMost;
    if |f| > 0 {
      var r := Finishes(rr, f, j);
      forall k: nat | GetHappens(rr, f, j, k)
        ensures GetRun(rr, f, j, k).offset <= GetRun(drr, f, j, k).offset
      {
        GetTakesUnique(rr, f, j, r, k);
        DrrDominatesRr(rr, drr, f, j, r, k);
      }
    }
  }

  /**
   * Exactly when is DRR at least as far as RR on all files of a given size and with lines of at
   * most a given length? When the lines, or the whole files, fit the quantum.
   */
  lemma NeverAheadExactly(rr: Config, drr: Config, j: Job, longest: nat)
    requires rr.policy.RR? && drr.policy.DRR? && rr.quantum == drr.quantum
    requires rr.Valid() && drr.Valid() && Drr.Fits(j.total, drr.quantum)
    requires j.Fresh() && longest <= j.total
    ensures (forall f: Bytes :: |f| == j.total && LinesAtMost(f, longest) ==> NeverAhead(rr, drr, f, j))
            <==> longest <= rr.quantum || j.total <= rr.quantum
  {
    hide GetRound, GetRun, Drr.Fits;
    var q := rr.quantum;
    if longest <= q || j.total <= q {
      forall f: Bytes | |f| == j.total && LinesAtMost(f, longest)
        ensures NeverAhead(rr, drr, f, j)
      {
        LinesWithin(f, longest, q);
        ShortLinesNeverAhead(rr, drr, f, j);
      }
    } else {
      var f := LongFirstLine(j.total, longest);
      LongFirstLineLines(j.total, longest);
      RrAhead(rr, drr, j, longest);
      assert GetHappens(rr, f, j, 1);
    }
  }

  lemma LinesWithin(f: Bytes, longest: nat, q: nat)
    requires LinesAtMost(f, longest) && (longest <= q || |f| <= q)
    ensures LinesAtMost(f, q)
  {
  }
}
