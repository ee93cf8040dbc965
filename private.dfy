/** The receiving end of the private forwarding protocol (protocol/private.go).
    The peer sends an 8-byte header, then AddrLen address bytes, each sealed
    with the fixed key when encryption is configured.  The handshake takes the
    session key from the header, turns the address into a "host:port" dial
    string and dials it. */
module Private {
  import opened Wire
  import opened Text
  import opened Encrypt
  import opened Net
  import opened Protocol

  /** The address loop: every read fills the buffer from index 0 again, and the
      loop ends once the byte counts of the reads add up to the buffer's size.
      The bytes (None if a read failed) and the read script left. */
  function AddrReads(script: seq<ReadEvent>, closed: bool, buf: Bytes, got: nat): (r: (Option<Bytes>, seq<ReadEvent>))
    ensures r.0.Some? ==> |r.0.value| == |buf|
    decreases Pending(script)
  {
    if got >= |buf| then (Some(buf), script)
    else
      match NextRead(script, closed, |buf|)
      case None => (None, AfterRead(script, closed, |buf|))
      case Some(d) =>
        ReadStep(script, closed, |buf|);
        AddrReads(AfterRead(script, closed, |buf|), closed, d + buf[|d|..], got + |d|)
  }

  /** The dial string for a decoded header and its (unsealed) address bytes. */
  function Target(h: Header, addr: Bytes, resolve: Resolver): (r: Result<string, Error>)
    ensures r.Err? <==> (h.addrType == PRIVATE_V4_ADDR && |addr| < 4)
                        || (h.addrType == PRIVATE_DOMAIN_ADDR && resolve(StringOf(addr)).None?)
                        || (h.addrType != PRIVATE_V4_ADDR && h.addrType != PRIVATE_DOMAIN_ADDR)
  {
    if h.addrType == PRIVATE_V4_ADDR then
      // net.IP(addrBuff[:4]) panics when fewer than four bytes were announced
      if |addr| < 4 then Err(Panicked) else Ok(HostPort(DottedQuad(addr[..4]), h.port))
    else if h.addrType == PRIVATE_DOMAIN_ADDR then
      match resolve(StringOf(addr))
      case None => Err(ResolveFailed)
      case Some(ip) => Ok(HostPort(ip, h.port))
    else Err(UnsupportedAddressType(h.addrType))
  }

  /** An IPv4 target is dialled at the dotted quad of the first four address
      bytes and the header's port; a domain target at the resolved host, when
      that host has no colon. */
  lemma TargetDialsHostAndPort(h: Header, addr: Bytes, resolve: Resolver)
    ensures h.addrType == PRIVATE_V4_ADDR && |addr| >= 4 ==>
              SplitHostPort(Target(h, addr, resolve).value) == Some((DottedQuad(addr[..4]), h.port))
              && ParseIPv4(DottedQuad(addr[..4])) == Some(addr[..4])
    ensures h.addrType == PRIVATE_DOMAIN_ADDR && resolve(StringOf(addr)).Some?
            && ':' !in resolve(StringOf(addr)).value ==>
              SplitHostPort(Target(h, addr, resolve).value) == Some((resolve(StringOf(addr)).value, h.port))
  {
    if h.addrType == PRIVATE_V4_ADDR && |addr| >= 4 {
      DialDottedQuad(addr[..4], h.port);
      ParseDottedQuad(addr[..4]);
    }
    if h.addrType == PRIVATE_DOMAIN_ADDR && resolve(StringOf(addr)).Some? && ':' !in resolve(StringOf(addr)).value {
      SplitHostPortOfHostPort(resolve(StringOf(addr)).value, h.port);
    }
  }

  /** What processRequest ends with: the dial string or error, the header it
      decoded (None if the header read failed) and the read script left. */
  datatype Processed = Processed(result: Result<string, Error>, header: Option<Header>, rest: seq<ReadEvent>)

  /** The header one read of `d` into eight zero bytes decodes to: a short
      read leaves zeros at the end, and the bytes are unsealed first. */
  function HeaderOf(d: Bytes, encrypt: bool): Header
    requires |d| <= HEADER_SIZE
  {
    DecodeHeader(Unseal(d + Zeros(HEADER_SIZE - |d|), encrypt))
  }

  function Process(script: seq<ReadEvent>, closed: bool, encrypt: bool, resolve: Resolver): Processed
  {
    match NextRead(script, closed, HEADER_SIZE)
    case None => Processed(Err(ReadFailed), None, AfterRead(script, closed, HEADER_SIZE))
    case Some(d) =>
      var h := HeaderOf(d, encrypt);
      var g := AddrReads(AfterRead(script, closed, HEADER_SIZE), closed, Zeros(h.addrLen), 0);
      match g.0
      case None => Processed(Err(ReadFailed), Some(h), g.1)
      case Some(a) => Processed(Target(h, Unseal(a, encrypt), resolve), Some(h), g.1)
  }

  class PrivateProtocol {
    var header: Header
    const conn: Conn
    const config: ProtoConfig
    /** The session key of the shared Encryptor. */
    var xorKey: uint8

    constructor (conn: Conn, config: ProtoConfig, xorKey: uint8)
      ensures this.conn == conn && this.config == config && this.xorKey == xorKey
      ensures header == Header(0, 0, 0, 0)
    {
      this.conn := conn;
      this.config := config;
      this.xorKey := xorKey;
      header := Header(0, 0, 0, 0);
    }

    /** One pass of the address loop: conn.Read(addrBuff), from index 0. */
    method ReadAgain(addrBuff: array<uint8>, i: nat, ghost target: (Option<Bytes>, seq<ReadEvent>))
      returns (m: nat, got: bool)
      requires i < addrBuff.Length
      requires target == AddrReads(conn.readEvents, conn.closed, addrBuff[..], i)
      modifies conn`readEvents, addrBuff
      ensures got ==> Pending(conn.readEvents) < Pending(old(conn.readEvents))
                      && target == AddrReads(conn.readEvents, conn.closed, addrBuff[..], i + m)
      ensures !got ==> target.0.None? && conn.readEvents == target.1
    {
      ghost var before := conn.readEvents;
      ghost var buf := addrBuff[..];
      ReadStep(before, conn.closed, addrBuff.Length);
      m, got := conn.Read(addrBuff, 0);
      if !got {
        return;
      }
      ghost var d := NextRead(before, conn.closed, |buf|).value;
      assert addrBuff[..] == d + buf[m..];
    }

    /** The address loop of processRequest, reading into make([]byte, addrLen). */
    method ReadAddress(addrLen: uint8) returns (ok: bool, addrBuff: array<uint8>)
      modifies conn`readEvents
      ensures fresh(addrBuff)
      ensures var g := AddrReads(old(conn.readEvents), conn.closed, Zeros(addrLen), 0);
              ok == g.0.Some? && conn.readEvents == g.1 && (ok ==> addrBuff[..] == g.0.value)
    {
      addrBuff := new uint8[addrLen](_ => 0);
      assert addrBuff[..] == Zeros(addrLen);
      ghost var target := AddrReads(conn.readEvents, conn.closed, Zeros(addrLen), 0);
      var i: nat := 0;
      while i < addrBuff.Length
        invariant target == AddrReads(conn.readEvents, conn.closed, addrBuff[..], i)
        decreases Pending(conn.readEvents)
      {
        var m, got := ReadAgain(addrBuff, i, target);
        if !got {
          return false, addrBuff;
        }
        i := i + m;
      }
      return true, addrBuff;
    }

    /** The header part of processRequest: one read into make([]byte, 8),
        NaiveDecrypt iff encryption is configured, binary.Read. */
    method ReadHeader() returns (ok: bool, h: Header)
      modifies conn`readEvents
      ensures ok == NextRead(old(conn.readEvents), conn.closed, HEADER_SIZE).Some?
      ensures ok ==> h == HeaderOf(NextRead(old(conn.readEvents), conn.closed, HEADER_SIZE).value, config.encrypt)
      ensures conn.readEvents == AfterRead(old(conn.readEvents), conn.closed, HEADER_SIZE)
    {
      var headerBytes := new uint8[HEADER_SIZE](_ => 0);
      ghost var zeros := headerBytes[..];
      assert zeros == Zeros(HEADER_SIZE);
      var n;
      n, ok := conn.Read(headerBytes, 0);
      if !ok {
        return false, Header(0, 0, 0, 0);
      }
      ghost var d := NextRead(old(conn.readEvents), conn.closed, HEADER_SIZE).value;
      assert headerBytes[..] == zeros[..0] + d + zeros[n..];
      assert zeros[n..] == Zeros(HEADER_SIZE - |d|);
      assert headerBytes[..] == d + Zeros(HEADER_SIZE - |d|);
      ghost var raw := headerBytes[..];
      if config.encrypt {
        assert raw == headerBytes[..HEADER_SIZE];
        Decrypt(headerBytes, HEADER_SIZE, XOR_KEY);
        assert headerBytes[..] == headerBytes[..HEADER_SIZE];
        assert headerBytes[..] == Decrypted(raw, XOR_KEY);
      }
      assert headerBytes[..] == Unseal(d + Zeros(HEADER_SIZE - |d|), config.encrypt);
      h := DecodeHeader(headerBytes[..]);
    }

    /** processRequest: the header, the session key, the address and the dial string. */
    method ProcessRequest(resolve: Resolver) returns (r: Result<string, Error>)
      modifies this`header, this`xorKey, conn`readEvents
      ensures var p := Process(old(conn.readEvents), conn.closed, config.encrypt, resolve);
              r == p.result && conn.readEvents == p.rest
              && header == (if p.header.Some? then p.header.value else old(header))
              && xorKey == (if p.header.Some? then p.header.value.xorKey % 0x100 else old(xorKey))
    {
      var ok, h := ReadHeader();
      if !ok {
        return Err(ReadFailed);
      }
      header := h;
      xorKey := header.xorKey % 0x100;

      ghost var g := AddrReads(conn.readEvents, conn.closed, Zeros(header.addrLen), 0);
      var got, addrBuff := ReadAddress(header.addrLen);
      if !got {
        return Err(ReadFailed);
      }
      ghost var raw := addrBuff[..];
      if config.encrypt {
        assert raw == addrBuff[..addrBuff.Length];
        Decrypt(addrBuff, addrBuff.Length, XOR_KEY);
        assert addrBuff[..] == addrBuff[..addrBuff.Length];
        assert addrBuff[..] == Decrypted(raw, XOR_KEY);
      }
      assert addrBuff[..] == Unseal(g.0.value, config.encrypt);
      r := Target(header, addrBuff[..], resolve);
    }

    /** HandShake: dial the requested target.  `remote` is what net.Dial returns
        (null when the dial fails); `dialed` is the address passed to it. */
    method HandShake(resolve: Resolver, remote: Conn?) returns (r: Result<Conn, Error>, dialed: Option<string>)
      modifies this`header, this`xorKey, conn`readEvents
      ensures var p := Process(old(conn.readEvents), conn.closed, config.encrypt, resolve);
              conn.readEvents == p.rest
              && xorKey == (if p.header.Some? then p.header.value.xorKey % 0x100 else old(xorKey))
              && dialed == (if p.result.Ok? then Some(p.result.value) else None)
              && (p.result.Err? ==> r == Err(p.result.error))
              && (p.result.Ok? ==> r == if remote == null then Err(DialFailed) else Ok(remote))
    {
      var addr := ProcessRequest(resolve);
      if addr.Err? {
        return Err(addr.error), None;
      }
      dialed := Some(addr.value);
      if remote == null {
        return Err(DialFailed), dialed;
      }
      return Ok(remote), dialed;
    }
  }

  // ---------------------------------------------------------------------------
  // Properties of processRequest
  // ---------------------------------------------------------------------------

  /** A request that arrives whole in one read, followed by anything: the header
      and the address are unsealed iff encryption is configured, the header is
      decoded field for field, and the target is formed from the sent address. */
  lemma ProcessWholeRequest(h: Header, a: Bytes, encrypt: bool, resolve: Resolver, rest: seq<ReadEvent>)
    requires |a| == h.addrLen
    ensures var p := Process([Chunk(Seal(EncodeHeader(h) + a, encrypt))] + rest, false, encrypt, resolve);
            p.header == Some(h) && p.result == Target(h, a, resolve) && p.rest == rest
  {
    var script := [Chunk(Seal(EncodeHeader(h) + a, encrypt))] + rest;
    var b := Seal(EncodeHeader(h) + a, encrypt);
    SealAppend(EncodeHeader(h), a, encrypt);
    var sh, sa := Seal(EncodeHeader(h), encrypt), Seal(a, encrypt);
    assert b == sh + sa;
    assert b[..HEADER_SIZE] == sh;
    var d := NextRead(script, false, HEADER_SIZE).value;
    assert d == sh;
    assert d + Zeros(0) == sh;
    UnsealSeal(EncodeHeader(h), encrypt);
    DecodeEncodeHeader(h);
    var after := AfterRead(script, false, HEADER_SIZE);
    if |a| == 0 {
      assert after == rest;
      assert a == [] && Unseal([], encrypt) == [];
    } else {
      assert b[HEADER_SIZE..] == sa;
      assert after == [Chunk(sa)] + rest;
      assert sa[..|sa|] == sa;
      assert NextRead(after, false, |a|) == Some(sa);
      assert AfterRead(after, false, |a|) == rest;
      assert sa + Zeros(|a|)[|a|..] == sa;
      assert AddrReads(after, false, Zeros(|a|), 0) == AddrReads(rest, false, sa, |a|);
      assert AddrReads(after, false, Zeros(|a|), 0) == (Some(sa), rest);
      UnsealSeal(a, encrypt);
    }
  }

  /** The refill quirk: when the address comes in two reads, the second read
      overwrites the front of the buffer, so the bytes taken are the second
      read's followed by zeros, and the first read's bytes are lost. */
  lemma SplitAddressIsOverwritten(a: Bytes, b: Bytes, n: nat, rest: seq<ReadEvent>)
    requires 0 < |a| <= |b| < n <= |a| + |b|
    ensures AddrReads([Chunk(a), Chunk(b)] + rest, false, Zeros(n), 0) == (Some(b + Zeros(n - |b|)), rest)
  {
    var script := [Chunk(a), Chunk(b)] + rest;
    assert a[..|a|] == a;
    assert NextRead(script, false, n) == Some(a);
    var s1 := AfterRead(script, false, n);
    assert s1 == [Chunk(b)] + rest;
    var buf1 := a + Zeros(n)[|a|..];
    assert b[..|b|] == b;
    assert NextRead(s1, false, |buf1|) == Some(b);
    assert AfterRead(s1, false, |buf1|) == rest;
    assert b + buf1[|b|..] == b + Zeros(n - |b|);
    assert AddrReads(script, false, Zeros(n), 0) == AddrReads(s1, false, buf1, |a|);
    assert AddrReads(s1, false, buf1, |a|) == AddrReads(rest, false, b + Zeros(n - |b|), |a| + |b|);
  }

  /** So a name split over two reads is not what the peer sent: "examp" then
      "le.com" for an 11-byte address yields "le.com" and five zero bytes. */
  lemma SplitNameIsCorrupted()
    ensures var sent := [101, 120, 97, 109, 112] + [108, 101, 46, 99, 111, 109];
            AddrReads([Chunk(sent[..5]), Chunk(sent[5..])], false, Zeros(11), 0).0 != Some(sent)
  {
    var sent: Bytes := [101, 120, 97, 109, 112] + [108, 101, 46, 99, 111, 109];
    SplitAddressIsOverwritten(sent[..5], sent[5..], 11, []);
    assert [Chunk(sent[..5]), Chunk(sent[5..])] + [] == [Chunk(sent[..5]), Chunk(sent[5..])];
    assert (sent[5..] + Zeros(5))[0] != sent[0];
  }
}
