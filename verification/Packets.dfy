/** Grouping the lines of a GET round into sends: changes the number of writes and nothing else. */
module Packets {
  import opened Common
  import opened Lines

  /** End of the packet that starts at `from`: `p` lines further, or `to` if that comes first. */
  function PacketEnd(f: Bytes, from: nat, to: nat, p: nat): (e: nat)
    requires from <= to <= |f| && Boundary(f, to)
    ensures from <= e <= to
    ensures p > 0 && from < to ==> from < e
    decreases p
  {
    if p == 0 || from == to then from else PacketEnd(f, LineEnd(f, from), to, p - 1)
  }

  /** The sends of a round that transfers `f[from..to]`. */
  function PacketsOf(f: Bytes, from: nat, to: nat, p: nat): seq<Bytes>
    requires from <= to <= |f| && Boundary(f, to) && p > 0
    decreases |f| - from
  {
    if from == to then []
    else
      var e := PacketEnd(f, from, to, p);
      [f[from..e]] + PacketsOf(f, e, to, p)
  }

  lemma PacketsUnfold(f: Bytes, from: nat, to: nat, p: nat)
    requires from <= to <= |f| && Boundary(f, to) && p > 0
    ensures from == to ==> PacketsOf(f, from, to, p) == []
    ensures from < to ==>
              var e := PacketEnd(f, from, to, p);
              PacketsOf(f, from, to, p) == [f[from..e]] + PacketsOf(f, e, to, p)
  {
  }

  lemma {:induction false} PacketEndLines(f: Bytes, from: nat, to: nat, p: nat)
    requires from <= to <= |f| && Boundary(f, to)
    ensures LineCount(f, from, to) == Min(p, LineCount(f, from, to)) + LineCount(f, PacketEnd(f, from, to, p), to)
    decreases p
  {
    if p > 0 && from < to {
      PacketEndLines(f, LineEnd(f, from), to, p - 1);
    }
  }

  /** For every `p` the sends carry the same bytes in the same order, in ceil(lines / p) writes. */
  lemma {:induction false} PacketizationRefines(f: Bytes, from: nat, to: nat, p: nat)
    requires from <= to <= |f| && Boundary(f, to) && p > 0
    ensures Flatten(PacketsOf(f, from, to, p)) == f[from..to]
    ensures |PacketsOf(f, from, to, p)| == CeilDiv(LineCount(f, from, to), p)
    decreases |f| - from
  {
    if from < to {
      var e, lines := PacketEnd(f, from, to, p), LineCount(f, from, to);
      PacketizationRefines(f, e, to, p);
      PacketEndLines(f, from, to, p);
      assert f[from..e] + f[e..to] == f[from..to];
      CountAfterPacket(lines, p);
    }
  }

  lemma CountAfterPacket(n: nat, p: nat)
    requires n > 0 && p > 0
    ensures CeilDiv(n, p) == 1 + CeilDiv(n - Min(p, n), p)
  {
    var rest := CeilDiv(n - Min(p, n), p);
    CeilDivBounds(n - Min(p, n), p);
    MulMonotone(rest, rest + 1, p);
    CeilDivUnique(n, p, 1 + rest);
  }
}
