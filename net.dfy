/** A stand-in for net.Conn.  What the peer sends is a script of read events
    and how the peer takes writes is a script of write events; the connection
    records every byte it has sent.  Reads are stream reads: a chunk longer
    than the reader's buffer stays pending for the next read.  Once the read
    script is used up, a read fails as at end of stream; once the write
    script is used up, a write fails.  A closed connection fails every read
    and write. */
module Net {
  import opened Wire

  datatype ReadEvent = Chunk(data: Bytes) | ReadError

  datatype WriteEvent = Accept(count: nat) | WriteError

  /** What a read script still holds; every read into a non-empty buffer consumes some of it. */
  function Pending(script: seq<ReadEvent>): nat
    decreases |script|
  {
    if script == [] then 0
    else (if script[0].Chunk? then |script[0].data| + 1 else 1) + Pending(script[1..])
  }

  /** The bytes a Read into `room` bytes of buffer returns, or None when it fails. */
  function NextRead(script: seq<ReadEvent>, closed: bool, room: nat): (r: Option<Bytes>)
    ensures r.Some? ==> |r.value| <= room
  {
    if closed || script == [] || script[0].ReadError? then None
    else Some(script[0].data[..Min(|script[0].data|, room)])
  }

  /** The read script after that Read. */
  function AfterRead(script: seq<ReadEvent>, closed: bool, room: nat): seq<ReadEvent>
  {
    if closed || script == [] then script
    else if script[0].ReadError? || |script[0].data| <= room then script[1..]
    else [Chunk(script[0].data[room..])] + script[1..]
  }

  /** Every byte the peer sends before its stream ends or fails. */
  function Stream(script: seq<ReadEvent>): Bytes
    decreases |script|
  {
    if script == [] || script[0].ReadError? then [] else script[0].data + Stream(script[1..])
  }

  /** What a connection will still deliver to its reader. */
  function Incoming(script: seq<ReadEvent>, closed: bool): Bytes
  {
    if closed then [] else Stream(script)
  }

  /** A read into a non-empty buffer makes progress, and what it returns is the
      front of what the connection will deliver. */
  lemma ReadStep(script: seq<ReadEvent>, closed: bool, room: nat)
    requires room > 0
    ensures Pending(AfterRead(script, closed, room)) <= Pending(script)
    ensures NextRead(script, closed, room).Some? ==>
              Pending(AfterRead(script, closed, room)) < Pending(script)
              && Incoming(script, closed)
                 == NextRead(script, closed, room).value + Incoming(AfterRead(script, closed, room), closed)
    ensures NextRead(script, closed, room).None? ==> Incoming(script, closed) == []
  {
    if !closed && script != [] && script[0].Chunk? {
      var d := script[0].data;
      if |d| > room {
        var after := AfterRead(script, closed, room);
        assert after[1..] == script[1..];
        assert d == d[..room] + d[room..];
      }
    }
  }

  /** The outcome of a Write of `len` bytes: the count taken and whether it succeeded. */
  function NextWrite(takes: seq<WriteEvent>, closed: bool, len: nat): (r: (nat, bool))
    ensures r.0 <= len && (!r.1 ==> r.0 == 0)
  {
    if closed || takes == [] || takes[0].WriteError? then (0, false)
    else (Min(takes[0].count, len), true)
  }

  function AfterWrite(takes: seq<WriteEvent>, closed: bool): seq<WriteEvent>
  {
    if closed || takes == [] then takes else takes[1..]
  }

  class Conn {
    var readEvents: seq<ReadEvent>
    var writeEvents: seq<WriteEvent>
    var sent: Bytes
    var closed: bool

    constructor (script: seq<ReadEvent>, takes: seq<WriteEvent>)
      ensures readEvents == script && writeEvents == takes && sent == [] && !closed
    {
      readEvents := script;
      writeEvents := takes;
      sent := [];
      closed := false;
    }

    /** Read(buf[lo:]) */
    method Read(buf: array<uint8>, lo: nat) returns (n: nat, ok: bool)
      requires lo <= buf.Length
      modifies this`readEvents, buf
      ensures ok == NextRead(old(readEvents), closed, buf.Length - lo).Some?
      ensures ok ==> n == |NextRead(old(readEvents), closed, buf.Length - lo).value|
                     && buf[..] == old(buf[..lo]) + NextRead(old(readEvents), closed, buf.Length - lo).value
                                   + old(buf[lo + n..])
      ensures !ok ==> n == 0 && buf[..] == old(buf[..])
      ensures readEvents == AfterRead(old(readEvents), closed, buf.Length - lo)
    {
      var got := NextRead(readEvents, closed, buf.Length - lo);
      readEvents := AfterRead(readEvents, closed, buf.Length - lo);
      match got
      case None =>
        n, ok := 0, false;
      case Some(d) =>
        n, ok := |d|, true;
        forall i | lo <= i < lo + n {
          buf[i] := d[i - lo];
        }
        assert buf[..] == old(buf[..lo]) + d + old(buf[lo + n..]);
    }

    /** Write(data): the peer takes a prefix of data. */
    method Write(data: Bytes) returns (m: nat, ok: bool)
      modifies this`writeEvents, this`sent
      ensures (m, ok) == NextWrite(old(writeEvents), closed, |data|)
      ensures sent == old(sent) + data[..m]
      ensures writeEvents == AfterWrite(old(writeEvents), closed)
    {
      m, ok := NextWrite(writeEvents, closed, |data|).0, NextWrite(writeEvents, closed, |data|).1;
      sent := sent + data[..m];
      writeEvents := AfterWrite(writeEvents, closed);
    }

    /** Close is idempotent; afterwards every read and write fails. */
    method Close()
      modifies this`closed
      ensures closed
    {
      closed := true;
    }
  }

  /** A read of d into a freshly made buffer of L zero bytes leaves d followed by zeros. */
  lemma ReadIntoZeros(L: nat, d: Bytes)
    requires |d| <= L
    ensures Zeros(L)[..0] + d + Zeros(L)[0 + |d|..] == d + Zeros(L - |d|)
  {
    assert Zeros(L)[..0] == [];
    assert Zeros(L)[|d|..] == Zeros(L - |d|);
  }

  // ---------------------------------------------------------------------------
  // io.ReadFull, which binary.Read uses to fill a fixed-size struct
  // ---------------------------------------------------------------------------

  /** Reads until `need` bytes have arrived: the bytes (None if a read failed
      first) and the read script left afterwards.  The bytes returned are
      exactly as many as asked for, and they are the front of the stream. */
  function Gather(script: seq<ReadEvent>, closed: bool, need: nat): (r: (Option<Bytes>, seq<ReadEvent>))
    ensures r.0.Some? ==> |r.0.value| == need
    ensures r.0.Some? ==> Incoming(script, closed) == r.0.value + Incoming(r.1, closed)
    decreases Pending(script)
  {
    if need == 0 then
      assert [] + Incoming(script, closed) == Incoming(script, closed);
      (Some([]), script)
    else
      match NextRead(script, closed, need)
      case None => (None, AfterRead(script, closed, need))
      case Some(d) =>
        ReadStep(script, closed, need);
        var (r, rest) := Gather(AfterRead(script, closed, need), closed, need - |d|);
        if r.Some? then
          var tail := Incoming(rest, closed);
          assert d + (r.value + tail) == (d + r.value) + tail;
          (Some(d + r.value), rest)
        else (None, rest)
  }

  function Prepend(prefix: Bytes, g: (Option<Bytes>, seq<ReadEvent>)): (Option<Bytes>, seq<ReadEvent>)
  {
    (if g.0.Some? then Some(prefix + g.0.value) else None, g.1)
  }

  lemma PrependNothing(g: (Option<Bytes>, seq<ReadEvent>))
    ensures Prepend([], g) == g
  {
    if g.0.Some? {
      assert [] + g.0.value == g.0.value;
    }
  }

  lemma PrependTwice(a: Bytes, b: Bytes, g: (Option<Bytes>, seq<ReadEvent>))
    ensures Prepend(a, Prepend(b, g)) == Prepend(a + b, g)
  {
    if g.0.Some? {
      assert a + (b + g.0.value) == (a + b) + g.0.value;
    }
  }

  /** io.ReadFull(conn, buf) */
  method ReadFull(conn: Conn, buf: array<uint8>) returns (ok: bool)
    modifies conn`readEvents, buf
    ensures ok == Gather(old(conn.readEvents), conn.closed, buf.Length).0.Some?
    ensures ok ==> buf[..] == Gather(old(conn.readEvents), conn.closed, buf.Length).0.value
    ensures conn.readEvents == Gather(old(conn.readEvents), conn.closed, buf.Length).1
  {
    ghost var target := Gather(conn.readEvents, conn.closed, buf.Length);
    var i: nat := 0;
    PrependNothing(target);
    while i < buf.Length
      invariant i <= buf.Length
      invariant target == Prepend(buf[..i], Gather(conn.readEvents, conn.closed, buf.Length - i))
      decreases Pending(conn.readEvents)
    {
      var n, got := ReadMore(conn, buf, i, target);
      if !got {
        return false;
      }
      i := i + n;
    }
    assert buf[..i] == buf[..] && buf[..] + [] == buf[..];
    return true;
  }

  /** One pass of io.ReadFull's loop: a Read into buf[i:]. */
  method ReadMore(conn: Conn, buf: array<uint8>, i: nat, ghost target: (Option<Bytes>, seq<ReadEvent>))
    returns (n: nat, got: bool)
    requires i < buf.Length
    requires target == Prepend(buf[..i], Gather(conn.readEvents, conn.closed, buf.Length - i))
    modifies conn`readEvents, buf
    ensures got ==> i + n <= buf.Length && Pending(conn.readEvents) < Pending(old(conn.readEvents))
                    && target == Prepend(buf[..i + n], Gather(conn.readEvents, conn.closed, buf.Length - i - n))
    ensures !got ==> target == (None, conn.readEvents)
  {
    ghost var before := conn.readEvents;
    ghost var pre := buf[..];
    ghost var whole := Gather(before, conn.closed, buf.Length - i);
    assert target == Prepend(pre[..i], whole);
    ghost var next := NextRead(before, conn.closed, buf.Length - i);
    n, got := conn.Read(buf, i);
    GatherStep(before, conn.closed, buf.Length - i, next, conn.readEvents);
    if !got {
      return;
    }
    ghost var d := next.value;
    assert |d| == n;
    ghost var g := Gather(conn.readEvents, conn.closed, buf.Length - i - n);
    assert whole == Prepend(d, g);
    assert buf[..i + n] == pre[..i] + d by {
      SpliceFront(buf[..], pre, d, i);
    }
    PrependTwice(pre[..i], d, g);
  }

  /** One read of Gather's: a failed read ends it, a read of d leaves d in front. */
  lemma GatherStep(script: seq<ReadEvent>, closed: bool, need: nat, got: Option<Bytes>, after: seq<ReadEvent>)
    requires need > 0 && got == NextRead(script, closed, need) && after == AfterRead(script, closed, need)
    ensures got.None? ==> Gather(script, closed, need) == (None, after)
    ensures got.Some? ==> Pending(after) < Pending(script)
                          && Gather(script, closed, need) == Prepend(got.value, Gather(after, closed, need - |got.value|))
  {
    ReadStep(script, closed, need);
  }

  lemma SpliceFront(s: Bytes, before: Bytes, d: Bytes, i: nat)
    requires i + |d| <= |before| && s == before[..i] + d + before[i + |d|..]
    ensures s[..i + |d|] == before[..i] + d
  {
  }

  /** The read script once k bytes of a leading chunk x have been taken. */
  function Remaining(x: Bytes, k: nat, more: seq<ReadEvent>): seq<ReadEvent>
    requires k <= |x|
  {
    if k == |x| then more else [Chunk(x[k..])] + more
  }

  /** A read of room bytes, at most what the leading chunk holds, takes exactly that many. */
  lemma ReadFromChunk(x: Bytes, k: nat, room: nat, more: seq<ReadEvent>)
    requires 0 < room && k + room <= |x|
    ensures NextRead(Remaining(x, k, more), false, room) == Some(x[k..k + room])
    ensures AfterRead(Remaining(x, k, more), false, room) == Remaining(x, k + room, more)
  {
    var s := Remaining(x, k, more);
    assert s[0] == Chunk(x[k..]);
    assert x[k..][..room] == x[k..k + room];
    if k + room < |x| {
      assert x[k..][room..] == x[k + room..];
      assert s[1..] == more;
    } else {
      assert s[1..] == more;
    }
  }

  /** io.ReadFull over a leading chunk that holds enough takes the bytes in one read. */
  lemma GatherFromChunk(x: Bytes, k: nat, need: nat, more: seq<ReadEvent>)
    requires 0 < need && k + need <= |x|
    ensures Gather(Remaining(x, k, more), false, need) == (Some(x[k..k + need]), Remaining(x, k + need, more))
  {
    ReadFromChunk(x, k, need, more);
    assert x[k..k + need] + [] == x[k..k + need];
  }
}
