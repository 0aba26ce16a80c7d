/** Deficit round robin: closed form of a GET and of a PUT, exact round counts, overflow. */
module Drr {
  import opened Common
  import opened Lines
  import opened Rounds

  /** No round of any file of `total` bytes overflows the 64-bit deficit (see `FitsIsExact`). */
  predicate Fits(total: nat, q: nat)
    requires q > 0
  {
    CeilDiv(total, q) * q < U64
  }

  /** The closed form once `allowance` bytes have been granted: every whole line it covers is sent. */
  predicate At(f: Bytes, j: Job, allowance: int) {
    && allowance >= 0
    && j.total == |f|
    && j.offset == Floor(f, Min(allowance, |f|))
    && j.offset + j.deficit == allowance
  }

  lemma ReachIsFloor(f: Bytes, off: nat, limit: nat)
    requires off <= limit <= |f| && Boundary(f, off)
    ensures Reach(f, off, limit) == Floor(f, limit)
  {
    var p, q := Reach(f, off, limit), Floor(f, limit);
    assert Boundary(f, p) && Boundary(f, q);
  }

  lemma FloorOfWhole(f: Bytes)
    ensures Floor(f, |f|) == |f|
  {
    assert Boundary(f, |f|);
  }

  lemma Step(c: Config, f: Bytes, j: Job, allowance: nat)
    requires c.policy.DRR? && c.Valid()
    requires At(f, j, allowance) && j.offset < |f|
    requires allowance + c.quantum < U64
    ensures At(f, GetRound(c, f, j), allowance + c.quantum)
  {
    hide Wrap;
    var limit := allowance + c.quantum;
    if limit >= |f| {
      FloorOfWhole(f);
    } else {
      ReachIsFloor(f, j.offset, limit);
    }
  }

  /** While the request is unfinished, fewer than `CeilDiv(total, q)` rounds were run. */
  lemma UnfinishedIsEarly(q: nat, f: Bytes, j: Job, k: nat)
    requires q > 0 && At(f, j, k * q)
    ensures j.offset < |f| <==> k < CeilDiv(|f|, q)
    ensures j.offset < |f| && Fits(|f|, q) ==> (k + 1) * q < U64
  {
    var r := CeilDiv(|f|, q);
    CeilDivBounds(|f|, q);
    if k < r {
      MulMonotone(k + 1, r, q);
      MulMonotone(k, k + 1, q);
    } else {
      MulMonotone(r, k, q);
      FloorOfWhole(f);
    }
  }

  /** The first `k` rounds all happen and end in the closed form, for any line structure. */
  lemma {:induction false} GetClosedForm(c: Config, f: Bytes, j: Job, k: nat)
    requires c.policy.DRR? && c.Valid() && Fits(|f|, c.quantum)
    requires j.Fresh() && j.total == |f| > 0
    requires GetHappens(c, f, j, k)
    ensures At(f, GetRun(c, f, j, k), k * c.quantum)
    ensures k > 0 ==> GetRun(c, f, j, k - 1).deficit + c.quantum < U64
  {
    hide GetRound;
    if k == 0 {
      assert Boundary(f, 0);
    } else {
      var before := GetRun(c, f, j, k - 1);
      if k > 1 {
        assert GetRun(c, f, j, k - 2).offset <= before.offset;
      }
      GetClosedForm(c, f, j, k - 1);
      UnfinishedIsEarly(c.quantum, f, before, k - 1);
      MulMonotone(k - 1, k, c.quantum);
      Step(c, f, before, (k - 1) * c.quantum);
    }
  }

  /** Exactly `CeilDiv(total, Q)` rounds finish the request, whatever its lines. */
  lemma {:induction false} GetRoundCount(c: Config, f: Bytes, j: Job, k: nat)
    requires c.policy.DRR? && c.Valid() && Fits(|f|, c.quantum)
    requires j.Fresh() && j.total == |f| > 0
    ensures GetHappens(c, f, j, k) <==> k <= CeilDiv(|f|, c.quantum)
    ensures GetHappens(c, f, j, k) ==>
              (GetRun(c, f, j, k).offset == |f| <==> k == CeilDiv(|f|, c.quantum))
  {
    hide GetRound;
    var r := CeilDiv(|f|, c.quantum);
    if k > 1 {
      GetRoundCount(c, f, j, k - 1);
      if GetHappens(c, f, j, k - 1) {
        GetClosedForm(c, f, j, k - 1);
        UnfinishedIsEarly(c.quantum, f, GetRun(c, f, j, k - 1), k - 1);
      } else {
        assert GetRun(c, f, j, k - 2).offset <= GetRun(c, f, j, k - 1).offset;
      }
    }
    if GetHappens(c, f, j, k) {
      GetClosedForm(c, f, j, k);
      UnfinishedIsEarly(c.quantum, f, GetRun(c, f, j, k), k);
    }
  }

  /** A line that is still waiting is longer than the saved-up deficit. */
  lemma DeficitBelowNextLine(f: Bytes, j: Job, allowance: nat)
    requires At(f, j, allowance) && j.offset < |f|
    ensures j.deficit < LineEnd(f, j.offset) - j.offset
  {
    if allowance >= |f| {
      FloorOfWhole(f);
    } else {
      assert Boundary(f, LineEnd(f, j.offset));
    }
  }

  /** The closed form of an upload: every byte of the allowance is used. */
  predicate PutAt(j: Job, allowance: int) {
    && allowance >= 0
    && j.offset == Min(allowance, j.total)
    && j.offset + j.deficit == allowance
  }

  lemma PutStep(c: Config, j: Job, allowance: nat)
    requires c.policy.DRR? && c.Valid()
    requires PutAt(j, allowance) && j.offset < j.total
    ensures PutAt(PutRound(c, j), allowance + c.quantum)
  {
    hide Wrap, StagingName;
  }

  /** An upload advances by exactly `Q` bytes a round; it saves nothing up, so it cannot overflow. */
  lemma {:induction false} PutClosedForm(c: Config, j: Job, k: nat)
    requires c.policy.DRR? && c.Valid()
    requires j.Fresh() && j.total > 0
    requires PutHappens(c, j, k)
    ensures PutAt(PutRun(c, j, k), k * c.quantum)
  {
    hide PutRound;
    if k > 0 {
      var q, before := c.quantum, PutRun(c, j, k - 1);
      if k > 1 {
        assert PutRun(c, j, k - 2).offset <= before.offset;
      }
      PutClosedForm(c, j, k - 1);
      MulVersusCeil(j.total, q, k - 1);
      CeilDivBounds(j.total, q);
      MulMonotone(k, CeilDiv(j.total, q), q);
      MulMonotone(k - 1, k, q);
      PutStep(c, before, (k - 1) * q);
    }
  }

  lemma {:induction false} PutRoundCount(c: Config, j: Job, k: nat)
    requires c.policy.DRR? && c.Valid()
    requires j.Fresh() && j.total > 0
    ensures PutHappens(c, j, k) <==> k <= CeilDiv(j.total, c.quantum)
    ensures PutHappens(c, j, k) ==>
              (PutRun(c, j, k).offset == j.total <==> k == CeilDiv(j.total, c.quantum))
  {
    hide PutRound;
    var q := c.quantum;
    if k > 1 {
      PutRoundCount(c, j, k - 1);
      if PutHappens(c, j, k - 1) {
        PutClosedForm(c, j, k - 1);
        MulVersusCeil(j.total, q, k - 1);
      } else {
        assert PutRun(c, j, k - 2).offset <= PutRun(c, j, k - 1).offset;
      }
    }
    if PutHappens(c, j, k) {
      PutClosedForm(c, j, k);
      MulVersusCeil(j.total, q, k);
    }
  }

  lemma MulVersusCeil(total: nat, q: nat, k: nat)
    requires q > 0
    ensures k * q < total <==> k < CeilDiv(total, q)
  {
    CeilDivBounds(total, q);
    if k < CeilDiv(total, q) {
      MulMonotone(k + 1, CeilDiv(total, q), q);
      MulMonotone(k, k + 1, q);
    } else {
      MulMonotone(CeilDiv(total, q), k, q);
    }
  }

  /** Sizes a caller can rely on: the length of any file, or `total + Q <= 2^64`. */
  lemma FitsInPractice(total: nat, q: nat)
    requires 0 < q < U64
    requires total <= FILE_LENGTHS || total + q <= U64
    ensures Fits(total, q)
  {
    CeilDivBounds(total, q);
    if q >= total > 0 {
      CeilDivUnique(total, q, 1);
    }
  }

  /**
   * No file there can be reaches the overflow: for every quantum, closed form and round count hold
   * of all of them.
   */
  lemma EveryFile(c: Config, f: Bytes, j: Job, k: nat)
    requires c.policy.DRR? && c.Valid() && j.Fresh() && j.total == |f| > 0
    requires |f| < 0x8000_0000_0000_0000
    ensures GetHappens(c, f, j, k) <==> k <= CeilDiv(|f|, c.quantum)
    ensures GetHappens(c, f, j, k) ==>
              && At(f, GetRun(c, f, j, k), k * c.quantum)
              && (GetRun(c, f, j, k).offset == |f| <==> k == CeilDiv(|f|, c.quantum))
  {
    hide GetRun, GetRound, At, Fits;
    FitsInPractice(|f|, c.quantum);
    GetRoundCount(c, f, j, k);
    if GetHappens(c, f, j, k) {
      GetClosedForm(c, f, j, k);
    }
  }

  /** A file of `n` bytes that is one long line. */
  function OneLine(n: nat): (f: Bytes)
    ensures |f| == n && forall p :: 0 < p < n ==> !Boundary(f, p)
  {
    seq(n, i => 'x')
  }

  /** A single long line that the saved-up allowance does not cover is not sent. */
  lemma OneLineStep(c: Config, n: nat, j: Job)
    requires c.policy.DRR? && c.Valid()
    requires j.total == n && j.offset == 0
    requires Wrap(j.deficit + c.quantum) < n
    ensures var r := GetRound(c, OneLine(n), j);
            r.offset == 0 && r.deficit == Wrap(j.deficit + c.quantum)
  {
    hide Wrap;
    assert Reach(OneLine(n), 0, Wrap(j.deficit + c.quantum)) == 0;
  }

  /** Before any overflow a single long line waits with the whole allowance saved up. */
  lemma {:induction false} OneLineWaits(c: Config, j: Job, k: nat)
    requires c.policy.DRR? && c.Valid() && j.Fresh() && j.total > 0
    requires k * c.quantum < j.total < U64
    ensures var r := GetRun(c, OneLine(j.total), j, k); r.offset == 0 && r.deficit == k * c.quantum
  {
    hide Wrap, GetRound;
    if k > 0 {
      MulMonotone(k - 1, k, c.quantum);
      OneLineWaits(c, j, k - 1);
      OneLineStep(c, j.total, GetRun(c, OneLine(j.total), j, k - 1));
    }
  }

  /** With `total` outside `Fits`, the last of the `CeilDiv(total, q)` rounds is the one that overflows. */
  lemma OverflowPoint(total: nat, q: nat) returns (saved: nat)
    requires 0 < total < U64 && 0 < q < U64 && !Fits(total, q)
    ensures CeilDiv(total, q) > 0 && saved == (CeilDiv(total, q) - 1) * q
    ensures saved < total && U64 <= saved + q < total + q
  {
    CeilDivBounds(total, q);
    saved := (CeilDiv(total, q) - 1) * q;
    MulMonotone(CeilDiv(total, q) - 1, CeilDiv(total, q), q);
  }

  /** The round that takes the allowance past 64 bits sends nothing. */
  lemma WrappingRound(c: Config, j: Job, k: nat, saved: nat)
    requires c.policy.DRR? && c.Valid() && j.Fresh() && 0 < j.total < U64
    requires saved == k * c.quantum && saved < j.total && U64 <= saved + c.quantum
    ensures GetRun(c, OneLine(j.total), j, k + 1).offset == 0
  {
    hide Wrap, GetRound, CeilDiv, Fits, OneLine;
    OneLineWaits(c, j, k);
    assert Wrap(saved + c.quantum) == saved + c.quantum - U64;
    OneLineStep(c, j.total, GetRun(c, OneLine(j.total), j, k));
  }

  /** The round in which the saved-up allowance of a single long line wraps around sends nothing. */
  lemma OneLineWraps(c: Config, j: Job)
    requires c.policy.DRR? && c.Valid() && j.Fresh() && 0 < j.total < U64
    requires !Fits(j.total, c.quantum)
    ensures GetRun(c, OneLine(j.total), j, CeilDiv(j.total, c.quantum)).offset == 0
  {
    var saved := OverflowPoint(j.total, c.quantum);
    hide GetRun, CeilDiv, Fits, OneLine;
    WrappingRound(c, j, CeilDiv(j.total, c.quantum) - 1, saved);
  }

  /**
   * Exactly the sizes in `Fits` are served in `CeilDiv(total, Q)` rounds whatever the lines:
   * for any other size the 64-bit deficit wraps around on a file that is a single line.
   */
  lemma FitsIsExact(c: Config, j: Job)
    requires c.policy.DRR? && c.Valid() && j.Fresh() && 0 < j.total < U64
    ensures CeilDiv(j.total, c.quantum) * c.quantum < 0x1_0000_0000_0000_0000 <==>
            forall f: Bytes | |f| == j.total ::
              GetRun(c, f, j, CeilDiv(j.total, c.quantum)).offset == |f|
  {
    hide GetRound, GetRun;
    var r := CeilDiv(j.total, c.quantum);
    if Fits(j.total, c.quantum) {
      forall f: Bytes | |f| == j.total
        ensures GetRun(c, f, j, r).offset == |f|
      {
        GetRoundCount(c, f, j, r);
      }
    } else {
      OneLineWraps(c, j);
      assert |OneLine(j.total)| == j.total;
    }
  }
}
