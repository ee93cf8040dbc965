/** The Shadowsocks-style front end (protocol/ss.go).  The client opens with
    a relay header, ATYP, DST.ADDR and DST.PORT in the layout of RFC 1928
    section 5, and nothing is written back.  Deployed as a server the proxy
    dials the target; deployed locally it dials the tunnel's remote end and
    sends a private forwarding request, in which the Port and XorKey fields
    are never filled in. */
module Shadowsocks {
  import opened Wire
  import opened Text
  import opened Encrypt
  import opened Net
  import opened Protocol
  import Socks5

  // ---------------------------------------------------------------------------
  // The relay header as a byte format
  // ---------------------------------------------------------------------------

  /** The relay header a client sends for a destination. */
  function EncodeSsHeader(d: Socks5.Destination): Bytes
    requires Socks5.ValidDestination(d)
  {
    [Socks5.AddressType(d)] + Socks5.EncodeAddress(d)
  }

  /** The header at the front of s, read as a cursor: the address type, the
      address, the port and the number of bytes the header takes. */
  function ParseSsHeader(s: Bytes): (r: Option<(uint8, string, uint16, nat)>)
    ensures r.Some? ==> r.value.3 <= |s|
  {
    if |s| < 1 then None
    else if s[0] == ATYP_IPV4 then
      if |s| < 7 then None else Some((ATYP_IPV4, Long2IP(Uint32(s[1..5])), Uint16(s[5..7]), 7))
    else if s[0] == ATYP_DOMAIN then
      if |s| < 2 then None
      else
        var len := s[1] as nat;
        if |s| < 4 + len then None
        else Some((ATYP_DOMAIN, StringOf(s[2..2 + len]), Uint16(s[2 + len..4 + len]), 4 + len))
    else None
  }

  /** Atype 1 takes exactly 6 more bytes, atype 3 one length byte and len + 2
      more; the address and port read back are the ones encoded. */
  lemma ParseEncodedSsHeader(d: Socks5.Destination, rest: Bytes)
    requires Socks5.ValidDestination(d)
    ensures ParseSsHeader(EncodeSsHeader(d) + rest)
            == Some((Socks5.AddressType(d), Socks5.Host(d), d.port, |EncodeSsHeader(d)|))
  {
    var s := EncodeSsHeader(d) + rest;
    match d
    case V4Dest(octets, port) =>
      assert s[1..5] == octets && s[5..7] == BigEndian16(port);
      Ip2LongPacks(octets);
      BigEndian32OfUint32(octets);
      Uint16OfBigEndian16(port);
    case DomainDest(name, port) =>
      assert s[2..2 + |name|] == name;
      assert s[2 + |name|..4 + |name|] == BigEndian16(port);
      Uint16OfBigEndian16(port);
  }

  // ---------------------------------------------------------------------------
  // parseAddress over the connection
  // ---------------------------------------------------------------------------

  datatype SsParsed = SsParsed(atype: uint8, addr: string, port: uint16, err: Option<Error>, rest: seq<ReadEvent>)

  /** What parseAddress returns and the read script it leaves.  A failed read
      of the type byte or of the domain bytes gives zero values and no error;
      a read of no bytes leaves the zero the buffer was made with. */
  function SsRead(script: seq<ReadEvent>, closed: bool): SsParsed
  {
    match NextRead(script, closed, 1)
    case None => SsParsed(0, "", 0, None, AfterRead(script, closed, 1))
    case Some(t) =>
      var atype := if |t| == 1 then t[0] else 0;
      var s1 := AfterRead(script, closed, 1);
      if atype == ATYP_IPV4 then SsReadV4(s1, closed)
      else if atype == ATYP_DOMAIN then SsReadDomain(s1, closed)
      else SsParsed(0, "", 0, Some(UnsupportedAddressType(atype)), s1)
  }

  /** Atype 1: binary.Read of SSHeaderV4, that is io.ReadFull of 6 bytes. */
  function SsReadV4(script: seq<ReadEvent>, closed: bool): SsParsed
  {
    var g := Gather(script, closed, 6);
    match g.0
    case None => SsParsed(0, "", 0, Some(ReadFailed), g.1)
    case Some(v4) => SsParsed(ATYP_IPV4, Long2IP(Uint32(v4[..4])), Uint16(v4[4..6]), None, g.1)
  }

  /** Atype 3: one read of the length byte, then one read of len + 2 bytes. */
  function SsReadDomain(script: seq<ReadEvent>, closed: bool): SsParsed
  {
    match NextRead(script, closed, 1)
    case None => SsParsed(0, "", 0, Some(ReadFailed), AfterRead(script, closed, 1))
    case Some(l) =>
      var len := if |l| == 1 then l[0] as nat else 0;
      SsReadDomainBody(AfterRead(script, closed, 1), closed, len)
  }

  /** The second read of atype 3: len + 2 bytes, the name then the port. */
  function SsReadDomainBody(script: seq<ReadEvent>, closed: bool, len: nat): SsParsed
  {
    match NextRead(script, closed, len + 2)
    case None => SsParsed(0, "", 0, None, AfterRead(script, closed, len + 2))
    case Some(b) =>
      var buf := b + Zeros(len + 2 - |b|);
      SsParsed(ATYP_DOMAIN, StringOf(buf[..len]), Uint16(buf[len..]), None, AfterRead(script, closed, len + 2))
  }

  /** A header that arrives in one segment is read exactly as the cursor reads
      it, and what follows it stays pending for the relay. */
  lemma SsReadOneSegment(s: Bytes, more: seq<ReadEvent>)
    requires ParseSsHeader(s).Some?
    ensures var h := ParseSsHeader(s).value;
            var p := SsRead([Chunk(s)] + more, false);
            p == SsParsed(h.0, h.1, h.2, None, Remaining(s, h.3, more))
  {
    var script := [Chunk(s)] + more;
    assert script == Remaining(s, 0, more);
    ReadFromChunk(s, 0, 1, more);
    assert s[0..1] == [s[0]];
    if s[0] == ATYP_IPV4 {
      SsReadV4OneSegment(s, more);
    } else {
      SsReadDomainOneSegment(s, more);
    }
  }

  lemma SsReadV4OneSegment(s: Bytes, more: seq<ReadEvent>)
    requires |s| >= 7
    ensures SsReadV4(Remaining(s, 1, more), false)
            == SsParsed(ATYP_IPV4, Long2IP(Uint32(s[1..5])), Uint16(s[5..7]), None, Remaining(s, 7, more))
  {
    GatherFromChunk(s, 1, 6, more);
    assert s[1..7][..4] == s[1..5] && s[1..7][4..6] == s[5..7];
  }

  lemma SsReadDomainOneSegment(s: Bytes, more: seq<ReadEvent>)
    requires |s| >= 2 && |s| >= 4 + s[1] as nat
    ensures var len := s[1] as nat;
            SsReadDomain(Remaining(s, 1, more), false)
            == SsParsed(ATYP_DOMAIN, StringOf(s[2..2 + len]), Uint16(s[2 + len..4 + len]), None, Remaining(s, 4 + len, more))
  {
    ReadFromChunk(s, 1, 1, more);
    assert s[1..2] == [s[1]];
    var len := s[1] as nat;
    ReadFromChunk(s, 2, len + 2, more);
    var b := s[2..4 + len];
    assert b + Zeros(0) == b;
    assert b[..len] == s[2..2 + len] && b[len..] == s[2 + len..4 + len];
  }

  /** The relay header a client encodes, followed by data in the same segment,
      yields the client's destination. */
  lemma SsReadEncoded(d: Socks5.Destination, payload: Bytes, more: seq<ReadEvent>)
    requires Socks5.ValidDestination(d)
    ensures var p := SsRead([Chunk(EncodeSsHeader(d) + payload)] + more, false);
            p.err.None? && p.atype == Socks5.AddressType(d) && p.addr == Socks5.Host(d) && p.port == d.port
  {
    ParseEncodedSsHeader(d, payload);
    SsReadOneSegment(EncodeSsHeader(d) + payload, more);
  }

  /** A failed read of the type byte is not an error: parseAddress reports
      type 0, an empty address and port 0, so a server deployment goes on to
      dial ":0". */
  lemma SsReadFailureIsSilent(script: seq<ReadEvent>, closed: bool, resolve: Resolver)
    requires NextRead(script, closed, 1).None?
    ensures var p := SsRead(script, closed);
            p == SsParsed(0, "", 0, None, AfterRead(script, closed, 1))
            && SsServerTarget(p.atype, p.addr, p.port, resolve) == Ok(":0")
  {
    assert Decimal(0) == "0";
    assert HostPort("", 0) == ":0";
  }

  /** For atype 3 a failed read of the length byte is an error, but a failed
      read of the name and port is not: parseAddress then reports type 0, an
      empty address and port 0 like a failed read of the type byte. */
  lemma SsDomainReadFailures(script: seq<ReadEvent>, closed: bool)
    requires NextRead(script, closed, 1) == Some([ATYP_DOMAIN])
    ensures var s1 := AfterRead(script, closed, 1);
            var l := NextRead(s1, closed, 1);
            var p := SsRead(script, closed);
            (l.None? ==> p.err == Some(ReadFailed))
            && (l.Some? && |l.value| == 1 && NextRead(AfterRead(s1, closed, 1), closed, l.value[0] as nat + 2).None? ==>
                  p.err.None? && p.atype == 0 && p.addr == "" && p.port == 0)
  {
  }

  // ---------------------------------------------------------------------------
  // The deployments
  // ---------------------------------------------------------------------------

  /** time.Now().Unix() truncated to 32 bits, modulo 256: any byte, 255 included. */
  function SsKey(now: int): uint8
  {
    (now % 0x1_0000_0000) % 0x100
  }

  /** The forwarding request deployLocal builds before sealing it.  Port and
      XorKey are never assigned, so both go out as zero; an address type other
      than 1 and 3 leaves Type and AddrLen zero and sends all 256 bytes of the
      zeroed address buffer. */
  function SsLocalPlain(atype: uint8, addr: string): Result<Bytes, Error>
    requires atype == ATYP_DOMAIN ==> IsByteString(addr)
  {
    if atype == ATYP_IPV4 then
      match Ip2Long(addr)
      case None => Err(Panicked)
      case Some(ip) => Ok(EncodeHeader(Header(0, PRIVATE_V4_ADDR, 4, 0)) + BigEndian32(ip))
    else if atype == ATYP_DOMAIN then
      Ok(EncodeHeader(Header(0, PRIVATE_DOMAIN_ADDR, |addr| % 0x100, 0)) + BytesOf(addr))
    else Ok(EncodeHeader(Header(0, 0, 0, 0)) + Zeros(0x100))
  }

  /** Whatever the destination, the header sent carries port 0 and key 0, so the
      receiving end dials port 0 and takes session key 0, while this end keeps
      the key it drew from the clock. */
  lemma SsForwardedPortAndKeyAreZero(d: Socks5.Destination)
    requires Socks5.ValidDestination(d)
    ensures var plain := SsLocalPlain(Socks5.AddressType(d), Socks5.Host(d));
            plain.Ok? && |plain.value| >= HEADER_SIZE
            && DecodeHeader(plain.value[..HEADER_SIZE]).port == 0
            && DecodeHeader(plain.value[..HEADER_SIZE]).xorKey == 0
            && plain.value[HEADER_SIZE..] == Socks5.PrivateAddress(d)
  {
    match d
    case V4Dest(octets, port) =>
      Ip2LongPacks(octets);
      BigEndian32OfUint32(octets);
      var h := Header(0, PRIVATE_V4_ADDR, 4, 0);
      var plain := EncodeHeader(h) + octets;
      assert plain[..HEADER_SIZE] == EncodeHeader(h);
      DecodeEncodeHeader(h);
    case DomainDest(name, port) =>
      BytesOfStringOf(name);
      var h := Header(0, PRIVATE_DOMAIN_ADDR, |name|, 0);
      var plain := EncodeHeader(h) + name;
      assert plain[..HEADER_SIZE] == EncodeHeader(h);
      DecodeEncodeHeader(h);
  }

  /** deployServer's dial string: the address, resolved first when it is a name. */
  function SsServerTarget(atype: uint8, addr: string, port: uint16, resolve: Resolver): Result<string, Error>
  {
    if atype == ATYP_DOMAIN then
      match resolve(addr)
      case None => Err(ResolveFailed)
      case Some(ip) => Ok(HostPort(ip, port))
    else Ok(HostPort(addr, port))
  }

  class SSProtocol {
    const conn: Conn
    const config: ProtoConfig
    /** The session key of the shared Encryptor. */
    var xorKey: uint8

    /** NewSS */
    constructor (conn: Conn, config: ProtoConfig, xorKey: uint8)
      ensures this.conn == conn && this.config == config && this.xorKey == xorKey
    {
      this.conn := conn;
      this.config := config;
      this.xorKey := xorKey;
    }

    /** parseAddress: read the relay header from the connection. */
    method ParseAddress() returns (atype: uint8, addr: string, port: uint16, err: Option<Error>)
      modifies conn`readEvents
      ensures SsParsed(atype, addr, port, err, conn.readEvents) == SsRead(old(conn.readEvents), conn.closed)
    {
      var atypeByte := new uint8[1](_ => 0);
      var n, ok := conn.Read(atypeByte, 0);
      if !ok {
        return 0, "", 0, None;
      }
      atype := atypeByte[0];
      if atype == ATYP_IPV4 {
        atype, addr, port, err := ReadV4();
      } else if atype == ATYP_DOMAIN {
        atype, addr, port, err := ReadDomain();
      } else {
        return 0, "", 0, Some(UnsupportedAddressType(atype));
      }
    }

    /** The atype 1 branch of parseAddress. */
    method ReadV4() returns (atype: uint8, addr: string, port: uint16, err: Option<Error>)
      modifies conn`readEvents
      ensures SsParsed(atype, addr, port, err, conn.readEvents) == SsReadV4(old(conn.readEvents), conn.closed)
    {
      var v4Header := new uint8[6](_ => 0);
      var ok := ReadFull(conn, v4Header);
      if !ok {
        return 0, "", 0, Some(ReadFailed);
      }
      return ATYP_IPV4, Long2IP(Uint32(v4Header[..4])), Uint16(v4Header[4..6]), None;
    }

    /** The atype 3 branch of parseAddress. */
    method ReadDomain() returns (atype: uint8, addr: string, port: uint16, err: Option<Error>)
      modifies conn`readEvents
      ensures SsParsed(atype, addr, port, err, conn.readEvents) == SsReadDomain(old(conn.readEvents), conn.closed)
    {
      ghost var script := conn.readEvents;
      var lenByte := new uint8[1](_ => 0);
      var n, ok := conn.Read(lenByte, 0);
      if !ok {
        return 0, "", 0, Some(ReadFailed);
      }
      ghost var l := NextRead(script, conn.closed, 1).value;
      ReadIntoZeros(1, l);
      atype, addr, port, err := ReadDomainBody(lenByte[0] as nat);
    }

    method ReadDomainBody(domainLen: nat) returns (atype: uint8, addr: string, port: uint16, err: Option<Error>)
      modifies conn`readEvents
      ensures SsParsed(atype, addr, port, err, conn.readEvents) == SsReadDomainBody(old(conn.readEvents), conn.closed, domainLen)
    {
      ghost var script := conn.readEvents;
      var domainBytes := new uint8[domainLen + 2](_ => 0);
      assert domainBytes[..] == Zeros(domainLen + 2);
      var n, ok := conn.Read(domainBytes, 0);
      if !ok {
        return 0, "", 0, None;
      }
      ghost var b := NextRead(script, conn.closed, domainLen + 2).value;
      ReadIntoZeros(domainLen + 2, b);
      return ATYP_DOMAIN, StringOf(domainBytes[..domainLen]), Uint16(domainBytes[domainLen..]), None;
    }

    /** deployLocal: dial the tunnel's remote end, install a key drawn from the
        clock, and send the sealed forwarding request. */
    method DeployLocal(atype: uint8, addr: string, now: int, remote: Conn?)
      returns (r: Result<Conn, Error>, dialed: Option<string>)
      requires atype == ATYP_DOMAIN ==> IsByteString(addr)
      modifies this`xorKey, remote
      ensures remote != null ==> remote.readEvents == old(remote.readEvents) && remote.closed == old(remote.closed)
      ensures dialed == Some(config.remoteAddr)
      ensures remote == null ==> r == Err(DialFailed) && xorKey == old(xorKey)
      ensures remote != null ==>
                xorKey == SsKey(now)
                && var plain := SsLocalPlain(atype, addr);
                   (plain.Err? ==> r == Err(plain.error) && remote.sent == old(remote.sent))
                   && (plain.Ok? ==>
                        var w := NextWrite(old(remote.writeEvents), remote.closed, |plain.value|);
                        remote.sent == old(remote.sent) + Seal(plain.value, config.encrypt)[..w.0]
                        && r == if w.1 then Ok(remote) else Err(WriteFailed))
    {
      dialed := Some(config.remoteAddr);
      if remote == null {
        return Err(DialFailed), dialed;
      }
      xorKey := SsKey(now);
      var plain := SsLocalPlain(atype, addr);
      if plain.Err? {
        return Err(plain.error), dialed;
      }
      var buffer := new uint8[|plain.value|](i requires 0 <= i < |plain.value| => plain.value[i]);
      assert buffer[..] == plain.value;
      if config.encrypt {
        assert plain.value == buffer[..buffer.Length];
        Encrypt.Encrypt(buffer, buffer.Length, XOR_KEY);
        assert buffer[..] == buffer[..buffer.Length];
      }
      assert buffer[..] == Seal(plain.value, config.encrypt);
      var m, ok := remote.Write(buffer[..]);
      if !ok {
        return Err(WriteFailed), dialed;
      }
      return Ok(remote), dialed;
    }

    /** deployServer: dial the target. */
    method DeployServer(atype: uint8, addr: string, port: uint16, resolve: Resolver, remote: Conn?)
      returns (r: Result<Conn, Error>, dialed: Option<string>)
      ensures var t := SsServerTarget(atype, addr, port, resolve);
              dialed == (if t.Ok? then Some(t.value) else None)
              && (t.Err? ==> r == Err(t.error))
              && (t.Ok? ==> r == if remote == null then Err(DialFailed) else Ok(remote))
    {
      var ip := addr;
      if atype == ATYP_DOMAIN {
        var found := resolve(addr);
        if found.None? {
          return Err(ResolveFailed), None;
        }
        ip := found.value;
      }
      dialed := Some(HostPort(ip, port));
      if remote == null {
        return Err(DialFailed), dialed;
      }
      return Ok(remote), dialed;
    }

    /** HandShake: parse, then deploy; nothing is written back to the client,
        and an unknown deployment yields a nil connection with no error. */
    method HandShake(resolve: Resolver, now: int, remote: Conn?)
      returns (r: Result<Conn?, Error>, dialed: Option<string>)
      requires remote != conn
      modifies conn`readEvents, this`xorKey, remote
      ensures conn.sent == old(conn.sent) && conn.writeEvents == old(conn.writeEvents)
      ensures remote != null ==> remote.readEvents == old(remote.readEvents) && remote.closed == old(remote.closed)
      ensures var p := SsRead(old(conn.readEvents), conn.closed);
              conn.readEvents == p.rest
              && (p.err.Some? ==> r == Err(p.err.value) && dialed.None? && xorKey == old(xorKey)
                                  && (remote != null ==> remote.sent == old(remote.sent)))
              && (p.err.None? && config.deploy == DEPLOY_SERVER ==>
                    var t := SsServerTarget(p.atype, p.addr, p.port, resolve);
                    dialed == (if t.Ok? then Some(t.value) else None) && xorKey == old(xorKey)
                    && r == (if t.Err? then Err(t.error) else if remote == null then Err(DialFailed) else Ok(remote))
                    && (remote != null ==> remote.sent == old(remote.sent)))
              && (p.err.None? && config.deploy != DEPLOY_SERVER && config.deploy != DEPLOY_LOCAL ==>
                    r == Ok(null) && dialed.None? && xorKey == old(xorKey))
      ensures var p := SsRead(old(conn.readEvents), conn.closed);
              p.err.None? && config.deploy == DEPLOY_LOCAL ==>
                dialed == Some(config.remoteAddr)
                && xorKey == (if remote != null then SsKey(now) else old(xorKey))
                && (remote == null ==> r == Err(DialFailed))
                && var plain := SsLocalPlain(p.atype, p.addr);
                   (remote != null && plain.Err? ==> r == Err(plain.error) && remote.sent == old(remote.sent))
                   && (remote != null && plain.Ok? ==>
                        var w := NextWrite(old(remote.writeEvents), remote.closed, |plain.value|);
                        remote.sent == old(remote.sent) + Seal(plain.value, config.encrypt)[..w.0]
                        && r == if w.1 then Ok(remote) else Err(WriteFailed))
      ensures r.Ok? && r.value != null ==> r.value == remote
    {
      var atype, addr, port, err := ParseAddress();
      if err.Some? {
        return Err(err.value), None;
      }
      if config.deploy == DEPLOY_SERVER {
        var d;
        d, dialed := DeployServer(atype, addr, port, resolve, remote);
        r := if d.Ok? then Ok(d.value) else Err(d.error);
      } else if config.deploy == DEPLOY_LOCAL {
        var d;
        d, dialed := DeployLocal(atype, addr, now, remote);
        r := if d.Ok? then Ok(d.value) else Err(d.error);
      } else {
        r, dialed := Ok(null), None;
      }
    }
  }
}
