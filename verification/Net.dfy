/** One client connection: an output that may accept partial writes, an input that arrives in chunks. */
module Net {
  import opened Common

  /** What one `recv` of at most `max` bytes takes from the chunks still to arrive. */
  function FirstRecv(chunks: seq<Bytes>, max: nat): (r: (Bytes, seq<Bytes>))
    requires max > 0
    ensures |r.0| <= max && Flatten(chunks) == r.0 + Flatten(r.1)
    ensures r.0 == [] ==> Flatten(chunks) == []
  {
    if chunks == [] then ([], [])
    else if chunks[0] == [] then FirstRecv(chunks[1..], max)
    else if |chunks[0]| <= max then (chunks[0], chunks[1..])
    else
      var rest := [chunks[0][max..]] + chunks[1..];
      assert chunks[0] == chunks[0][..max] + chunks[0][max..];
      assert rest[1..] == chunks[1..];
      assert Flatten(chunks) == chunks[0][..max] + (chunks[0][max..] + Flatten(chunks[1..]));
      (chunks[0][..max], rest)
  }

  /** The state of a connection that requests depend on. */
  datatype Link = Link(broken: bool, wire: Bytes, incoming: seq<Bytes>)

  class Connection {
    /** Every byte handed to the peer so far. */
    var wire: Bytes
    /** The completed `send_all` calls. */
    var sends: seq<Bytes>
    /** The bytes the peer will still deliver before it stops, in the pieces TCP makes of them. */
    var incoming: seq<Bytes>
    /** Set once a send has failed; a broken connection accepts nothing more. */
    var broken: bool
    /** How many more sends will accept nothing at all. */
    var stalls: nat
    /** Whether the stream ends with an error, rather than with its orderly end or a time-out. */
    const aborts: bool

    constructor (incoming: seq<Bytes>, stalls: nat, aborts: bool)
      ensures wire == [] && sends == [] && !broken
      ensures this.incoming == incoming && this.stalls == stalls && this.aborts == aborts
    {
      this.incoming, this.stalls, this.aborts := incoming, stalls, aborts;
      wire, sends, broken := [], [], false;
    }

    function State(): Link
      reads this
    {
      Link(broken, wire, incoming)
    }

    /** The operating system's `send`: takes some prefix of the data, or fails with -1. */
    method Send(data: Bytes) returns (n: int)
      requires data != []
      modifies this`wire, this`broken, this`stalls
      ensures n == -1 || 0 <= n <= |data|
      ensures n == -1 ==> broken && wire == old(wire)
      ensures n >= 0 ==> !broken && !old(broken) && wire == old(wire) + data[..n]
      ensures stalls <= old(stalls) && (n == 0 ==> stalls < old(stalls))
    {
      var fails: bool, accepted: nat := *, *;
      if broken || fails {
        broken := true;
        return -1;
      }
      if accepted == 0 && stalls > 0 {
        stalls := stalls - 1;
        return 0;
      }
      if accepted == 0 || accepted > |data| {
        accepted := |data|;
      }
      wire := wire + data[..accepted];
      return accepted;
    }

    /** Repeats `send` until all data is accepted or a send fails. */
    method SendAll(data: Bytes) returns (ok: bool)
      modifies this`wire, this`sends, this`broken, this`stalls
      ensures ok ==> wire == old(wire) + data && sends == old(sends) + [data] && broken == old(broken)
      ensures !ok ==> broken && sends == old(sends)
      ensures !ok ==> exists k :: 0 <= k <= |data| && wire == old(wire) + data[..k]
    {
      var sent := 0;
      while sent < |data|
        invariant sent <= |data|
        invariant wire == old(wire) + data[..sent]
        invariant sends == old(sends) && broken == old(broken)
        decreases |data| - sent, stalls
      {
        var n := Send(data[sent..]);
        if n < 0 {
          return false;
        }
        assert data[..sent] + data[sent..][..n] == data[..sent + n];
        sent := sent + n;
      }
      assert data[..sent] == data;
      sends := sends + [data];
      return true;
    }

    /** One `recv`: an empty result means end of stream, time-out or error. */
    method Recv(max: nat) returns (got: Bytes)
      requires max > 0
      modifies this`incoming
      ensures (got, incoming) == FirstRecv(old(incoming), max)
    {
      var (g, rest) := FirstRecv(incoming, max);
      got, incoming := g, rest;
    }
  }
}
