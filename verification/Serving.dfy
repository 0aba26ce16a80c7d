/** Serving one round of a GET: server.cpp `serve_get`, and its use in the worker loop. */
module Serving {
  import opened Common
  import opened Lines
  import opened Rounds
  import opened Packets
  import opened Net
  import opened Scheduling
  import opened Delivery
  import opened Paths

  predicate IsValidFilename(name: string) {
    name != "" && name != "." && name != ".." && '/' !in name
  }

  /** The names let through are exactly those that stay in the directory they are looked up in. */
  lemma ValidIsContained(name: string)
    ensures IsValidFilename(name) <==> Contained(name)
  {
    ContainedExactly(name);
  }

  function ErrorLine(reason: string): Bytes {
    "ERR " + reason + "\n"
  }

  lemma InvalidFilenameLine()
    ensures ErrorLine("invalid filename") == "ERR invalid filename\n"
  {
  }

  lemma NotFoundLine()
    ensures ErrorLine("file not found") == "ERR file not found\n"
  {
  }

  lemma PacketizationLine()
    ensures ErrorLine("invalid packetization") == "ERR invalid packetization\n"
  {
  }

  /** The writes of one successful GET round that transfers `n` bytes. */
  function RoundSends(f: Bytes, j: Job, n: nat, p: nat): seq<Bytes>
    requires j.offset + n <= |f| && Boundary(f, j.offset + n) && p > 0
  {
    (if j.responseSent then [] else [StatusLine(j.total)]) + PacketsOf(f, j.offset, j.offset + n, p)
  }

  /** Chooses the bytes of a round: all that remains, or the whole lines that fit the budget. */
  method SelectLines(r: Request, f: Bytes, budget: nat, allowOverrun: bool) returns (roundBytes: nat)
    requires r.offset < |f| && 0 < budget
    modifies r`a14
    ensures roundBytes == Selected(f, r.offset, budget, allowOverrun)
    ensures r.a14 == old(r.a14) + if Overruns(f, r.offset, budget, allowOverrun) then 1 else 0
    ensures roundBytes > 0 ==> Boundary(f, r.offset + roundBytes)
  {
    var remaining := |f| - r.offset;
    roundBytes := 0;
    if budget >= remaining {
      return remaining;
    }
    var lineOffset := r.offset;
    var limit := r.offset + budget;
    while roundBytes < budget
      invariant roundBytes <= budget && lineOffset == r.offset + roundBytes
      invariant roundBytes > 0 ==> Boundary(f, lineOffset)
      invariant Reach(f, r.offset, limit) >= lineOffset
      invariant r.a14 == old(r.a14)
      decreases budget - roundBytes
    {
      var ok, next, line := ReadFileLine(f, lineOffset);
      if !ok {
        assert false;
        break;
      }
      assert Boundary(f, next);
      if roundBytes == 0 && |line| > budget {
        if allowOverrun {
          roundBytes := |line|;
          r.a14 := r.a14 + 1;
        }
        break;
      }
      if roundBytes + |line| > budget {
        break;
      }
      roundBytes := roundBytes + |line|;
      lineOffset := next;
    }
  }

  /** Collects up to `p` whole lines of the round that ends at `to`; both error exits are dead. */
  method GatherPacket(f: Bytes, from: nat, to: nat, p: nat) returns (ok: bool, packet: Bytes, next: nat)
    requires from < to <= |f| && Boundary(f, to) && p > 0
    ensures ok && next == PacketEnd(f, from, to, p) && packet == f[from..next]
  {
    packet, next := [], from;
    var linesInPacket := 0;
    while linesInPacket < p && next < to
      invariant linesInPacket <= p && from <= next <= to
      invariant packet == f[from..next] && Boundary(f, to)
      invariant PacketEnd(f, from, to, p) == PacketEnd(f, next, to, p - linesInPacket)
    {
      var read, after, line := ReadFileLine(f, next);
      if !read {
        assert false;
        return false, packet, next;
      }
      if |line| > to - next {
        assert false;
        return false, packet, next;
      }
      packet := packet + line;
      linesInPacket := linesInPacket + 1;
      next := after;
    }
    ok := true;
  }

  /** Sends `f[from..to]`, `p` lines to a write. */
  method SendPackets(conn: Connection, f: Bytes, from: nat, to: nat, p: nat) returns (ok: bool, sent: nat)
    requires from < to <= |f| && Boundary(f, to) && p > 0
    modifies conn`wire, conn`sends, conn`broken, conn`stalls
    ensures !ok ==> conn.broken
    ensures old(conn.broken) ==> conn.broken
    ensures ok ==>
              && sent == to - from
              && conn.broken == old(conn.broken)
              && conn.wire == old(conn.wire) + f[from..to]
              && conn.sends == old(conn.sends) + PacketsOf(f, from, to, p)
  {
    hide Boundary, PacketEnd, PacketsOf;
    sent := 0;
    assert f[from..from] == [];
    ghost var done: seq<Bytes> := [];
    PacketsUnfold(f, from, to, p);
    while from + sent < to
      invariant from + sent <= to
      invariant conn.broken == old(conn.broken)
      invariant conn.wire == old(conn.wire) + f[from..from + sent]
      invariant conn.sends == old(conn.sends) + done
      invariant done + PacketsOf(f, from + sent, to, p) == PacketsOf(f, from, to, p)
    {
      var start := from + sent;
      PacketsUnfold(f, start, to, p);
      var gathered, packet, next := GatherPacket(f, start, to, p);
      if !gathered {
        assert false;
        return false, sent;
      }
      ok := conn.SendAll(packet);
      if !ok {
        return false, sent;
      }
      sent := sent + |packet|;
      assert f[from..start] + f[start..next] == f[from..next];
      assert (done + [packet]) + PacketsOf(f, next, to, p) == done + ([packet] + PacketsOf(f, next, to, p));
      done := done + [packet];
    }
    PacketsUnfold(f, to, to, p);
    return true, sent;
  }

  lemma NothingSelected(f: Bytes, off: nat, budget: nat, allowOverrun: bool)
    requires off == |f| || budget == 0
    requires off <= |f|
    ensures Selected(f, off, budget, allowOverrun) == 0 && !Overruns(f, off, budget, allowOverrun)
  {
  }

  /** Selects the lines of the round and sends them; the status line is already out. */
  method ServeLines(r: Request, conn: Connection, f: Bytes, budget: nat, allowOverrun: bool, packetization: int)
    returns (ok: bool, processed: nat)
    requires |f| == r.total && r.offset <= r.total
    modifies r`a14, conn`wire, conn`sends, conn`broken, conn`stalls
    ensures !ok ==> packetization <= 0 || conn.broken
    ensures !ok && !conn.broken ==> conn.wire == old(conn.wire) + ErrorLine("invalid packetization")
    ensures old(conn.broken) ==> conn.broken
    ensures ok ==> processed == Selected(f, r.offset, budget, allowOverrun)
    ensures ok ==> r.a14 == old(r.a14) + if Overruns(f, r.offset, budget, allowOverrun) then 1 else 0
    ensures ok ==> conn.broken == old(conn.broken)
    ensures ok ==> conn.wire == old(conn.wire) + f[r.offset..r.offset + processed]
    ensures ok && processed == 0 ==> conn.sends == old(conn.sends)
    ensures ok && processed > 0 ==>
              && packetization > 0 && Boundary(f, r.offset + processed)
              && conn.sends == old(conn.sends) + PacketsOf(f, r.offset, r.offset + processed, packetization)
  {
    hide Selected, Overruns, PacketsOf, Boundary;
    if r.offset >= r.total || budget == 0 {
      NothingSelected(f, r.offset, budget, allowOverrun);
      return true, 0;
    }
    if packetization <= 0 {
      var _ := conn.SendAll(ErrorLine("invalid packetization"));
      return false, 0;
    }
    var roundBytes := SelectLines(r, f, budget, allowOverrun);
    if roundBytes == 0 {
      return true, 0;
    }
    ok, processed := SendPackets(conn, f, r.offset, r.offset + roundBytes, packetization);
  }

  /**
   * One budgeted GET round. The file is `None` when it does not exist. Apart from a bad name, a
   * missing file, a bad packet size or a broken connection the round succeeds: the read-error
   * and packetization-error exits are dead for a file that does not change.
   */
  method ServeGet(r: Request, conn: Connection, file: Option<Bytes>, budget: nat,
                  allowOverrun: bool, packetization: int)
    returns (ok: bool, processed: nat)
    requires file.Some? ==> |file.value| == r.total && r.offset <= r.total
    modifies r`a14, r`responseSent, conn`wire, conn`sends, conn`broken, conn`stalls
    ensures !ok ==> !IsValidFilename(r.name) || file.None? || packetization <= 0 || conn.broken
    ensures old(conn.broken) ==> conn.broken
    ensures ok ==> IsValidFilename(r.name) && Contained(r.name) && file.Some?
    ensures !ok && !conn.broken && Contained(r.name) ==> file.None? || packetization <= 0
    ensures ok ==>
              && processed == Selected(file.value, r.offset, budget, allowOverrun)
              && (processed > 0 ==> Boundary(file.value, r.offset + processed) && packetization > 0)
    ensures ok ==>
              var over := if Overruns(file.value, r.offset, budget, allowOverrun) then 1 else 0;
              r.Value() == old(r.Value()).(responseSent := true, a14 := old(r.a14) + over)
    ensures ok && !conn.broken ==>
              var n := Selected(file.value, r.offset, budget, allowOverrun);
              conn.wire == old(conn.wire) + (if old(r.responseSent) then [] else StatusLine(r.total))
                           + file.value[r.offset..r.offset + n]
    ensures ok && !conn.broken && packetization > 0 && Boundary(file.value, r.offset + processed) ==>
              conn.sends == old(conn.sends) + RoundSends(file.value, old(r.Value()), processed, packetization)
    ensures !conn.broken && !Contained(r.name) ==>
              conn.wire == old(conn.wire) + "ERR invalid filename\n"
    ensures !conn.broken && Contained(r.name) && file.None? ==>
              conn.wire == old(conn.wire) + "ERR file not found\n"
    ensures !ok && !conn.broken && Contained(r.name) && file.Some? ==>
              conn.wire == old(conn.wire) + (if old(r.responseSent) then [] else StatusLine(r.total))
                           + "ERR invalid packetization\n"
    ensures !ok ==> r.Value() == old(r.Value()).(responseSent := r.responseSent, a14 := r.a14)
  {
    hide Selected, Overruns, StatusLine, ErrorLine, IsValidFilename, Contained, PacketsOf, Boundary;
    ValidIsContained(r.name);
    InvalidFilenameLine();
    NotFoundLine();
    PacketizationLine();
    processed := 0;
    if !IsValidFilename(r.name) {
      var _ := conn.SendAll(ErrorLine("invalid filename"));
      return false, 0;
    }
    if file.None? {
      var _ := conn.SendAll(ErrorLine("file not found"));
      return false, 0;
    }
    var f := file.value;
    if !r.responseSent {
      var _ := conn.SendAll(StatusLine(r.total));
      r.responseSent := true;
    }
    ok, processed := ServeLines(r, conn, f, budget, allowOverrun, packetization);
    if processed == 0 {
      NoPackets(f, r.offset, packetization);
    }
  }

  lemma NoPackets(f: Bytes, off: nat, p: int)
    ensures p > 0 && off <= |f| && Boundary(f, off) ==> PacketsOf(f, off, off, p) == []
  {
  }
}
