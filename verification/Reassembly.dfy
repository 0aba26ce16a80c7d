/** Reading a line and then a body from a stream that TCP may have split anywhere. */
module Reassembly {
  import opened Common
  import opened Decimals
  import opened Rounds
  import opened Net
  import opened Delivery
  import opened Worker

  /** Reading gives up once this many bytes have come without a newline. */
  const LINE_LIMIT: nat := 8192
  /** Size of one read. */
  const READ_SIZE: nat := 4096

  /** Position of the first newline, or the length if there is none. */
  function Newline(s: Bytes): (n: nat)
    ensures n <= |s|
    ensures n < |s| ==> s[n] == '\n'
    ensures forall i :: 0 <= i < n ==> s[i] != '\n'
  {
    if s == [] || s[0] == '\n' then 0
    else
      var n := 1 + Newline(s[1..]);
      assert forall i :: 0 < i < n ==> s[i] == s[1..][i - 1];
      n
  }

  lemma NewlineIs(s: Bytes, n: nat)
    requires n <= |s| && (n < |s| ==> s[n] == '\n')
    requires forall i :: 0 <= i < n ==> s[i] != '\n'
    ensures Newline(s) == n
  {
    var m := Newline(s);
  }

  /** A line, what was read beyond it, and what is still to come; or failure. */
  datatype LineRead = NoLine | GotLine(line: Bytes, leftover: Bytes, rest: seq<Bytes>)

  /** The reading loop on values, after `line` has been collected. */
  function ReadLine(chunks: seq<Bytes>, line: Bytes): LineRead
    decreases |Flatten(chunks)|
  {
    if |line| >= LINE_LIMIT then NoLine
    else
      var (got, rest) := FirstRecv(chunks, READ_SIZE);
      if got == [] then NoLine
      else if Newline(got) < |got|
      then GotLine(line + got[..Newline(got) + 1], got[Newline(got) + 1..], rest)
      else ReadLine(rest, line + got)
  }

  /** One turn of the loop. */
  lemma ReadTurn(chunks: seq<Bytes>, line: Bytes)
    requires |line| < LINE_LIMIT
    ensures var (got, rest) := FirstRecv(chunks, READ_SIZE);
            && Flatten(chunks) == got + Flatten(rest) && |got| <= READ_SIZE
            && (got == [] ==> ReadLine(chunks, line) == NoLine && Flatten(chunks) == [])
            && (Newline(got) < |got| ==>
                  ReadLine(chunks, line) == GotLine(line + got[..Newline(got) + 1], got[Newline(got) + 1..], rest))
            && (got != [] && Newline(got) == |got| ==>
                  ReadLine(chunks, line) == ReadLine(rest, line + got))
  {
    hide Flatten, FirstRecv, Newline;
  }

  lemma ReadLimit(chunks: seq<Bytes>, line: Bytes)
    requires |line| >= LINE_LIMIT
    ensures ReadLine(chunks, line) == NoLine
  {
  }

  /** `read_header_line`, and in the same words the client's `read_status_line`. */
  method ReadHeaderLine(conn: Connection) returns (ok: bool, line: Bytes, leftover: Bytes)
    modifies conn`incoming
    ensures var r := ReadLine(old(conn.incoming), []);
            && (ok <==> r.GotLine?)
            && (ok ==> r == GotLine(line, leftover, conn.incoming))
  {
    hide ReadLine, FirstRecv, Flatten, Newline;
    line, leftover := [], [];
    while |line| < LINE_LIMIT
      invariant ReadLine(old(conn.incoming), []) == ReadLine(conn.incoming, line)
      decreases |Flatten(conn.incoming)|
    {
      ghost var before := line;
      ReadTurn(conn.incoming, line);
      var got := conn.Recv(READ_SIZE);
      if got == [] {
        return false, [], [];
      }
      var i := 0;
      while i < |got|
        invariant i <= |got| && line == before + got[..i]
        invariant forall k :: 0 <= k < i ==> got[k] != '\n'
      {
        line := line + [got[i]];
        if got[i] == '\n' {
          NewlineIs(got, i);
          assert line == before + got[..i + 1];
          return true, line, got[i + 1..];
        }
        i := i + 1;
      }
      NewlineIs(got, i);
      assert got[..i] == got;
    }
    ReadLimit(conn.incoming, line);
    return false, [], [];
  }

  lemma NewlineBeyond(line: Bytes, more: Bytes)
    requires Newline(line) == |line|
    ensures Newline(line + more) >= |line|
  {
    assert forall i :: 0 <= i < |line| ==> (line + more)[i] == line[i];
  }

  lemma NewlineAcross(line: Bytes, got: Bytes, more: Bytes)
    requires Newline(line) == |line|
    ensures Newline(got) < |got| ==> Newline(line + (got + more)) == |line| + Newline(got)
    ensures Newline(got) == |got| ==> Newline(line + got) == |line + got|
  {
    if Newline(got) < |got| {
      NewlineIs(line + (got + more), |line| + Newline(got));
    } else {
      NewlineIs(line + got, |line + got|);
    }
  }

  lemma CutAcross(line: Bytes, got: Bytes, more: Bytes, k: nat)
    requires k <= |got|
    ensures (line + (got + more))[..|line| + k] == line + got[..k]
    ensures (line + (got + more))[|line| + k..] == got[k..] + more
    ensures line + (got + more) == (line + got) + more
  {
  }

  /** The line and what follows it, when the newline is at `k` in the bytes of this read. */
  lemma SplitAt(line: Bytes, got: Bytes, more: Bytes, k: nat, n: nat)
    requires k < |got| && n == |line| + k
    ensures (line + (got + more))[..n + 1] == line + got[..k + 1]
    ensures (line + (got + more))[n + 1..] == got[k + 1..] + more
  {
    CutAcross(line, got, more, k + 1);
  }

  lemma FoundNow(data: Bytes, n: nat, line: Bytes, leftover: Bytes, rest: seq<Bytes>)
    requires n == Newline(data) < |data| && data[..n + 1] == line && data[n + 1..] == leftover + Flatten(rest)
    ensures Reads(GotLine(line, leftover, rest), data)
  {
    hide Flatten, Newline;
  }

  /** A newline among the first 8192 bytes is found, and nothing is lost, however they arrive. */
  lemma EarlyNewline(chunks: seq<Bytes>, line: Bytes)
    requires Newline(line) == |line|
    requires var data := line + Flatten(chunks); Newline(data) < |data| && Newline(data) < 8192
    ensures var data, r := line + Flatten(chunks), ReadLine(chunks, line);
            && r.GotLine?
            && r.line == data[..Newline(data) + 1]
            && r.leftover + Flatten(r.rest) == data[Newline(data) + 1..]
  {
    hide Flatten, ReadLine, Newline;
    Finds(chunks, line);
  }

  /** The line up to the first newline of `data` was read, and nothing after it is lost. */
  predicate Reads(r: LineRead, data: Bytes) {
    && Newline(data) < |data|
    && r.GotLine?
    && r.line == data[..Newline(data) + 1]
    && r.leftover + Flatten(r.rest) == data[Newline(data) + 1..]
  }

  lemma {:induction false} Finds(chunks: seq<Bytes>, line: Bytes)
    requires Newline(line) == |line|
    requires var data := line + Flatten(chunks); Newline(data) < |data| && Newline(data) < LINE_LIMIT
    ensures Reads(ReadLine(chunks, line), line + Flatten(chunks))
    decreases |Flatten(chunks)|
  {
    hide Flatten, FirstRecv, ReadLine, Newline, Reads;
    var stream := Flatten(chunks);
    NewlineBeyond(line, stream);
    ReadTurn(chunks, line);
    var (got, rest) := FirstRecv(chunks, READ_SIZE);
    var more := Flatten(rest);
    NewlineAcross(line, got, more);
    if Newline(got) < |got| {
      SplitAt(line, got, more, Newline(got), Newline(line + stream));
      FoundNow(line + stream, Newline(line + stream), line + got[..Newline(got) + 1], got[Newline(got) + 1..], rest);
    } else {
      CutAcross(line, got, more, 0);
      SomethingReceived(line, stream, got);
      Finds(rest, line + got);
    }
  }

  lemma SomethingReceived(line: Bytes, stream: Bytes, got: Bytes)
    requires Newline(line) == |line| && Newline(line + stream) < |line + stream|
    requires got == [] ==> stream == []
    ensures got != []
  {
    assert line + [] == line;
  }

  /** Without a newline, or with one beyond the last byte a final read can reach, reading fails. */
  lemma {:induction false} LateNewline(chunks: seq<Bytes>, line: Bytes)
    requires Newline(line) == |line|
    requires var data := line + Flatten(chunks);
             Newline(data) == |data| || Newline(data) > 12286
    ensures ReadLine(chunks, line) == NoLine
    decreases |Flatten(chunks)|
  {
    if |line| < LINE_LIMIT {
      hide Flatten, FirstRecv, ReadLine;
      ReadTurn(chunks, line);
      var (got, rest) := FirstRecv(chunks, READ_SIZE);
      NewlineAcross(line, got, Flatten(rest));
      if got != [] && Newline(got) == |got| {
        CutAcross(line, got, Flatten(rest), 0);
        LateNewline(rest, line + got);
      }
    }
  }

  /** A chunk that fits one read is received whole. */
  lemma RecvWhole(x: Bytes, rest: seq<Bytes>)
    requires 0 < |x| <= READ_SIZE
    ensures FirstRecv([x] + rest, READ_SIZE) == (x, rest)
  {
    assert ([x] + rest)[1..] == rest;
  }

  /** Two reads without a newline. */
  lemma TwoReads(x: Bytes, y: Bytes, rest: seq<Bytes>)
    requires 0 < |x| <= READ_SIZE && 0 < |y| <= READ_SIZE && Newline(x) == |x| && Newline(y) == |y|
    ensures ReadLine([x] + ([y] + rest), []) == ReadLine(rest, x + y)
  {
    hide Flatten, FirstRecv, ReadLine, Newline;
    RecvWhole(x, [y] + rest);
    ReadTurn([x] + ([y] + rest), []);
    RecvWhole(y, rest);
    ReadTurn([y] + rest, x);
    assert [] + x == x;
  }

  lemma FlattenThree(data: Bytes, i: nat, j: nat)
    requires i <= j <= |data|
    ensures Flatten([data[..i]] + ([data[i..j]] + [data[j..]])) == data
  {
    FlattenAppend([data[..i]], [data[i..j]] + [data[j..]]);
    FlattenAppend([data[i..j]], [data[j..]]);
    FlattenOne(data[..i]);
    FlattenOne(data[i..j]);
    FlattenOne(data[j..]);
  }

  lemma FlattenOne(x: Bytes)
    ensures Flatten([x]) == x
  {
    assert [x][1..] == [];
  }

  lemma NoNewline(data: Bytes, i: nat, j: nat)
    requires i <= j <= Newline(data)
    ensures Newline(data[i..j]) == j - i
  {
    NewlineIs(data[i..j], j - i);
  }

  /** A split that ends a read exactly at the limit gives up. */
  lemma SplitThatFails(data: Bytes) returns (a: seq<Bytes>)
    requires LINE_LIMIT <= Newline(data)
    ensures Flatten(a) == data && ReadLine(a, []) == NoLine
  {
    hide Flatten, Newline;
    var x, y, z := data[..READ_SIZE], data[READ_SIZE..LINE_LIMIT], data[LINE_LIMIT..];
    a := [x] + ([y] + [z]);
    FlattenThree(data, READ_SIZE, LINE_LIMIT);
    assert data[0..READ_SIZE] == x;
    NoNewline(data, 0, READ_SIZE);
    NoNewline(data, READ_SIZE, LINE_LIMIT);
    TwoReads(x, y, [z]);
  }

  /** A split that leaves one byte below the limit gets a whole further read. */
  lemma SplitThatSucceeds(data: Bytes) returns (b: seq<Bytes>)
    requires LINE_LIMIT <= Newline(data) < |data| && Newline(data) < LINE_LIMIT - 1 + READ_SIZE
    ensures Flatten(b) == data
    ensures ReadLine(b, []).GotLine?
  {
    hide Flatten, FirstRecv, ReadLine, Newline;
    var last := LINE_LIMIT - 1;
    var x, y, z := data[..READ_SIZE], data[READ_SIZE..last], data[last..];
    b := [x] + ([y] + [z]);
    FlattenThree(data, READ_SIZE, last);
    assert data[0..READ_SIZE] == x;
    NoNewline(data, 0, READ_SIZE);
    NoNewline(data, READ_SIZE, last);
    TwoReads(x, y, [z]);
    ReadTurn([z], x + y);
    LastRead(data, last);
  }

  lemma LastRead(data: Bytes, last: nat)
    requires last <= Newline(data) < |data| && Newline(data) < last + READ_SIZE
    ensures var got := FirstRecv([data[last..]], READ_SIZE).0; Newline(got) < |got|
  {
    var z, k := data[last..], Newline(data) - last;
    var got := FirstRecv([z], READ_SIZE).0;
    assert got == if |z| <= READ_SIZE then z else z[..READ_SIZE];
    assert got[k] == data[Newline(data)];
    NewlineIs(got, k);
  }

  /** The line a read returns, if any. */
  function LineOf(r: LineRead): Option<Bytes> {
    if r.GotLine? then Some(r.line) else None
  }

  /**
   * Exactly when does the line read depend only on the bytes? Whenever the newline is not at a
   * position from 8192 up to 12286, where it depends on how TCP split the stream.
   */
  lemma SplitIndependence(data: Bytes)
    ensures (forall a, b :: Flatten(a) == data && Flatten(b) == data ==>
               LineOf(ReadLine(a, [])) == LineOf(ReadLine(b, [])))
            <==> !(8192 <= Newline(data) < |data| && Newline(data) <= 12286)
  {
    hide Flatten, ReadLine, Newline;
    if LINE_LIMIT <= Newline(data) < |data| && Newline(data) < LINE_LIMIT - 1 + READ_SIZE {
      var a := SplitThatFails(data);
      var b := SplitThatSucceeds(data);
      assert LineOf(ReadLine(a, [])) != LineOf(ReadLine(b, []));
    } else {
      forall a, b | Flatten(a) == data && Flatten(b) == data
        ensures LineOf(ReadLine(a, [])) == LineOf(ReadLine(b, []))
      {
        assert [] + Flatten(a) == data && [] + Flatten(b) == data;
        NewlineIs([], 0);
        if Newline(data) < |data| && Newline(data) < LINE_LIMIT {
          EarlyNewline(a, []);
          EarlyNewline(b, []);
        } else {
          LateNewline(a, []);
          LateNewline(b, []);
        }
      }
    }
  }

  // ----- Upload: header line, then body -----

  /**
   * A parsed PUT request starts its upload with all of its body ahead that the client sends,
   * whichever part of it came with the header line.
   */
  lemma UploadStarts(chunks: seq<Bytes>, header: Bytes, body: Bytes, sent: Bytes, files: map<string, Bytes>, j: Job)
    requires Newline(header) == |header| < 8192
    requires Flatten(chunks) == header + "\n" + sent && Agree(body, sent)
    requires j.Fresh() && j.total == |body|
    ensures var r := ReadLine(chunks, []);
            && r.GotLine? && r.line == header + "\n"
            && (j.pending == r.leftover ==>
                  && Uploading(j, body, files, r.rest)
                  && (Arrives(j, body, r.rest) <==> body <= sent))
  {
    hide Flatten, ReadLine;
    var data := header + "\n" + sent;
    assert [] + Flatten(chunks) == data;
    HeaderSplits(header, sent, []);
    assert data + [] == data && sent + [] == sent;
    EarlyNewline(chunks, []);
    assert body[0..] == body;
  }

  lemma HeaderSplits(header: Bytes, body: Bytes, more: Bytes)
    requires Newline(header) == |header|
    ensures var data := header + "\n" + body + more;
            && Newline(data) == |header| < |data|
            && data[..|header| + 1] == header + "\n"
            && data[|header| + 1..] == body + more
  {
    var data := header + "\n" + body + more;
    assert forall i :: 0 <= i < |header| ==> data[i] == header[i];
    NewlineIs(data, |header|);
  }

  // ----- Client: status line, then file -----

  /** `recv_exact`: exactly `size` bytes, first those already read. */
  method RecvExact(conn: Connection, size: nat, prefix: Bytes) returns (ok: bool, out: Bytes)
    modifies conn`incoming
    ensures ok <==> |prefix + Flatten(old(conn.incoming))| >= size
    ensures ok ==> out == (prefix + Flatten(old(conn.incoming)))[..size]
  {
    ghost var stream := prefix + Flatten(conn.incoming);
    var prefixOff := 0;
    out := [];
    while |out| < size && prefixOff < |prefix|
      invariant prefixOff == |out| <= |prefix| && |out| <= size
      invariant out == stream[..|out|]
    {
      var chunk := Min(size - |out|, |prefix| - prefixOff);
      out := out + prefix[prefixOff..prefixOff + chunk];
      prefixOff := prefixOff + chunk;
    }
    while |out| < size
      invariant |out| <= size && |out| <= |stream|
      invariant out == stream[..|out|]
      invariant |out| == size || stream[|out|..] == Flatten(conn.incoming)
    {
      var got := conn.Recv(Min(size - |out|, 8192));
      if got == [] {
        return false, out;
      }
      assert stream[..|out|] + got == stream[..|out| + |got|];
      out := out + got;
    }
    ok := true;
  }

  /**
   * The client's download: status line, size, file. Whatever the chunks, a stream that is the
   * status line and the file gives back the file.
   */
  method GetFile(conn: Connection, ghost f: Bytes) returns (file: Option<Bytes>)
    modifies conn`incoming
    ensures Flatten(old(conn.incoming)) == StatusLine(|f|) + f && |f| < U64 ==> file == Some(f)
  {
    hide Flatten, ReadLine, StatusLine, LeadingNumber;
    ghost var intact := Flatten(conn.incoming) == StatusLine(|f|) + f && |f| < U64;
    if intact {
      StatusArrives(conn.incoming, f);
      SizeFromStatus(|f|);
    }
    var ok, line, leftover := ReadHeaderLine(conn);
    if !ok || |line| < 3 || line[..3] != "OK " {
      return None;
    }
    var size := LeadingNumber(line[3..]);
    if size.None? {
      return None;
    }
    var received, out := RecvExact(conn, size.value, leftover);
    if intact {
      assert f[..|f|] == f;
    }
    return if received then Some(out) else None;
  }

  lemma StatusArrives(chunks: seq<Bytes>, f: Bytes)
    requires Flatten(chunks) == StatusLine(|f|) + f && |f| < U64
    ensures var r := ReadLine(chunks, []);
            r.GotLine? && r.line == StatusLine(|f|) && r.leftover + Flatten(r.rest) == f
  {
    hide Flatten, ReadLine;
    var header := "OK " + Decimal(|f|);
    DecimalOfWord(|f|);
    assert forall i :: 0 <= i < |Decimal(|f|)| ==> IsDigit(Decimal(|f|)[i]);
    NewlineIs(header, |header|);
    HeaderSplits(header, f, []);
    assert header + "\n" + f + [] == StatusLine(|f|) + f;
    assert [] + Flatten(chunks) == StatusLine(|f|) + f;
    EarlyNewline(chunks, []);
  }

  lemma SizeFromStatus(n: nat)
    ensures |StatusLine(n)| >= 3 && StatusLine(n)[..3] == "OK "
    ensures LeadingNumber(StatusLine(n)[3..]) == Some(n)
  {
    assert StatusLine(n)[3..] == Decimal(n) + "\n";
    LeadingNumberOfDecimal(n, "\n");
  }
}
