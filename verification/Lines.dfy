/** Line structure of a file, and the line reader of file_io.cpp. */
module Lines {
  import opened Common

  /** Positions between which whole lines lie: the two ends of the file and just after a newline. */
  predicate Boundary(f: Bytes, p: nat)
    requires p <= |f|
  {
    p == 0 || p == |f| || f[p - 1] == '\n'
  }

  /** The end of the line that starts at `off`: the first boundary after it. */
  function LineEnd(f: Bytes, off: nat): (e: nat)
    requires off < |f|
    ensures off < e <= |f| && Boundary(f, e)
    ensures forall q :: off < q < e ==> !Boundary(f, q)
    decreases |f| - off
  {
    if Boundary(f, off + 1) then off + 1 else LineEnd(f, off + 1)
  }

  /** The furthest boundary after `off` that is not beyond `limit`, or `off` if there is none. */
  function Reach(f: Bytes, off: nat, limit: nat): (p: nat)
    requires off <= limit <= |f|
    ensures off <= p <= limit
    ensures p > off ==> Boundary(f, p)
    ensures forall q :: p < q <= limit ==> !Boundary(f, q)
    decreases limit
  {
    if limit == off || Boundary(f, limit) then limit else Reach(f, off, limit - 1)
  }

  /** The furthest boundary of the whole file that is not beyond `limit`. */
  function Floor(f: Bytes, limit: nat): (p: nat)
    requires limit <= |f|
    ensures p <= limit && Boundary(f, p)
    ensures forall q :: p < q <= limit ==> !Boundary(f, q)
  {
    Reach(f, 0, limit)
  }

  /** Number of lines in `f[from..to]`, cutting after every newline. */
  function LineCount(f: Bytes, from: nat, to: nat): nat
    requires to <= |f|
    decreases |f| - from
  {
    if from >= to then 0 else 1 + LineCount(f, LineEnd(f, from), to)
  }

  /** No line of the file is longer than `limit`. */
  ghost predicate LinesAtMost(f: Bytes, limit: nat) {
    forall p :: 0 <= p < |f| && Boundary(f, p) ==> LineEnd(f, p) - p <= limit
  }

  /**
   * One line from `offset`, newline included when the file has it, and the offset of the next line.
   * Fails only at the end of the file.
   */
  method ReadFileLine(f: Bytes, offset: nat) returns (ok: bool, next: nat, line: Bytes)
    ensures ok <==> offset < |f|
    ensures ok ==> next == LineEnd(f, offset) && line == f[offset..next]
    ensures !ok ==> next == offset && line == []
  {
    line, next := [], offset;
    if offset >= |f| {
      return false, next, line;
    }
    while next < |f| && f[next] != '\n'
      invariant offset <= next <= |f|
      invariant line == f[offset..next]
      invariant forall q :: offset < q <= next && q < |f| ==> !Boundary(f, q)
    {
      line := line + [f[next]];
      next := next + 1;
    }
    if next < |f| {
      line := line + ['\n'];
      next := next + 1;
    }
    ok := true;
    assert Boundary(f, next) && Boundary(f, LineEnd(f, offset));
  }
}
