/** The SOCKS5 front end of the proxy (protocol/socks5.go), the subset of
    RFC 1928 it speaks: method negotiation accepting only "no authentication"
    (section 3), the CONNECT request (section 4) with IPv4 and domain-name
    addresses (section 5), and a reply whose bound address and port are zero
    (section 6).  Deployed as a server it dials the requested target; deployed
    locally it dials the remote end of the tunnel and sends it a private
    forwarding request instead. */
module Socks5 {
  import opened Wire
  import opened Text
  import opened Encrypt
  import opened Net
  import opened Protocol

  /** NewSocks5 allocates make([]byte, 512). */
  const BUFF_SIZE: nat := 512
  const SOCKS_VERSION: uint8 := 5
  const CMD_CONNECT: uint8 := 1

  datatype AuthHeader = AuthHeader(ver: uint8, nmethod: uint8)

  datatype RequestHeader = RequestHeader(ver: uint8, cmd: uint8, reserved: uint8, addressType: uint8)

  /** Socks5RequestReply, written big-endian by binary.Write. */
  datatype RequestReply = RequestReply(ver: uint8, rsp: uint8, rsv: uint8, atype: uint8, bndAddr: uint32, bndPort: uint16)

  function EncodeReply(r: RequestReply): (b: Bytes)
    ensures |b| == 10
  {
    [r.ver, r.rsp, r.rsv, r.atype] + BigEndian32(r.bndAddr) + BigEndian16(r.bndPort)
  }

  /** The reply replyRequest writes for a status. */
  function ReplyBytes(rsp: uint8): Bytes
  {
    EncodeReply(RequestReply(SOCKS_VERSION, rsp, 0, ATYP_IPV4, 0, 0))
  }

  /** The reply is exactly {5, rsp, 0, 1, 0, 0, 0, 0, 0, 0}. */
  lemma ReplyLayout(rsp: uint8)
    ensures ReplyBytes(rsp) == [5, rsp, 0, 1, 0, 0, 0, 0, 0, 0]
  {
    assert BigEndian32(0) == [0, 0, 0, 0];
    assert BigEndian16(0) == [0, 0];
  }

  /** The method-selection reply {5, 0}. */
  const AUTH_REPLY: Bytes := [SOCKS_VERSION, 0]

  /** The checks of authMethod on the buffer after the read of n bytes: version
      5 and at least one method, then "no authentication" (0) among the methods
      buff[2:n].  The slice panics when n < 2. */
  function AuthCheck(b: Bytes, n: nat): (r: Outcome<Error>)
    requires 2 <= |b| && n <= |b|
    ensures r == Pass <==> b[0] == SOCKS_VERSION && b[1] != 0 && n >= 2 && 0 in b[2..n]
    ensures r == Fail(BadAuthVersion) <==> b[0] != SOCKS_VERSION || b[1] == 0
  {
    if b[0] != SOCKS_VERSION || b[1] == 0 then Fail(BadAuthVersion)
    else if n < 2 then Fail(Panicked)
    else if 0 !in b[2..n] then Fail(NoAcceptableMethod)
    else Pass
  }

  /** The checks of processRequest: version 5 and command CONNECT; the reserved
      byte is not looked at.  The slice buff[4:n] panics when n < 4. */
  function RequestCheck(b: Bytes, n: nat): (r: Outcome<Error>)
    requires 4 <= |b| && n <= |b|
    ensures r == Pass <==> b[0] == SOCKS_VERSION && b[1] == CMD_CONNECT && n >= 4
    ensures r == Fail(BadRequest) <==> b[0] != SOCKS_VERSION || b[1] != CMD_CONNECT
  {
    if b[0] != SOCKS_VERSION || b[1] != CMD_CONNECT then Fail(BadRequest)
    else if n < 4 then Fail(Panicked)
    else Pass
  }

  /** parseAddress(atype, data).  `data` is buff[4:n]: `len` is its length and
      `view` is everything up to the buffer's capacity, because Go lets
      data[:4] and data[1:1+alen] reach past the length into older bytes.
      Indexing data[0] needs a length of at least one. */
  function ParseAddress(atype: uint8, view: Bytes, len: nat): (r: Result<(string, uint16), Error>)
    requires len <= |view|
    ensures r.Ok? ==> atype == ATYP_IPV4 || atype == ATYP_DOMAIN
    ensures r.Ok? && atype == ATYP_DOMAIN ==> IsByteString(r.value.0) && |r.value.0| < 0x100
    ensures atype != ATYP_IPV4 && atype != ATYP_DOMAIN ==> r == Err(UnsupportedAddressType(atype))
  {
    if atype == ATYP_IPV4 then
      if |view| < 6 then Err(Panicked)
      else Ok(V4Address(view))
    else if atype == ATYP_DOMAIN then
      if len == 0 then Err(Panicked)
      else
        var alen := view[0];
        var addrEnd := AddUint8(1, alen);
        var portEnd := AddUint8(3, alen);
        if addrEnd < 1 || portEnd < addrEnd || |view| < portEnd then Err(Panicked)
        else Ok(DomainAddress(view, alen))
    else Err(UnsupportedAddressType(atype))
  }

  /** A sum of uint8 operands, as Go computes it: modulo 256. */
  function AddUint8(a: uint8, b: uint8): (r: uint8)
    ensures r as int == if a as int + b as int < 0x100 then a as int + b as int else a as int + b as int - 0x100
  {
    (a as int + b as int) % 0x100
  }

  /** The longest name parseAddress takes: for a length byte of 253, 254 or
      255 the uint8 sums 1+alen and 3+alen wrap and the slices of data panic. */
  const MAX_PARSED_NAME: nat := 252

  /** The wrap-around makes every length byte above 252 a panic, whatever the buffer holds. */
  lemma LongDomainPanics(view: Bytes, len: nat)
    requires 1 <= len <= |view| && view[0] as nat > MAX_PARSED_NAME
    ensures ParseAddress(ATYP_DOMAIN, view, len) == Err(Panicked)
  {
  }

  /** long2IP(binary.BigEndian.Uint32(data[:4])) and the port in data[4:6]. */
  function V4Address(view: Bytes): (string, uint16)
    requires |view| >= 6
  {
    (Long2IP(Uint32(view[..4])), Uint16(view[4..6]))
  }

  /** string(data[1:1+alen]) and the port in data[1+alen:3+alen]. */
  function DomainAddress(view: Bytes, alen: nat): (r: (string, uint16))
    requires |view| >= 3 + alen
    ensures IsByteString(r.0) && |r.0| == alen
  {
    (StringOf(view[1..1 + alen]), Uint16(view[1 + alen..3 + alen]))
  }

  /** atype 1: the address is the dotted quad of data[0:4] and the port is data[4:6] big-endian. */
  lemma ParseAddressV4(view: Bytes, len: nat)
    requires len <= |view| && |view| >= 6
    ensures var r := ParseAddress(ATYP_IPV4, view, len);
            r.Ok? && r.value.0 == DottedQuad(view[..4]) && ParseIPv4(r.value.0) == Some(view[..4])
            && BigEndian16(r.value.1) == view[4..6]
  {
    BigEndian32OfUint32(view[..4]);
    BigEndian16OfUint16(view[4..6]);
    ParseDottedQuad(view[..4]);
  }

  /** atype 3 with a length byte up to 252: the address is data[1:1+len] with
      len = data[0], and the port is data[1+len:3+len] big-endian. */
  lemma ParseAddressDomain(view: Bytes, len: nat)
    requires 1 <= len <= |view| && |view| >= 3 + view[0] as int && view[0] as nat <= MAX_PARSED_NAME
    ensures var r := ParseAddress(ATYP_DOMAIN, view, len);
            r.Ok? && BytesOf(r.value.0) == view[1..1 + view[0]]
            && BigEndian16(r.value.1) == view[1 + view[0]..3 + view[0]]
  {
    BytesOfStringOf(view[1..1 + view[0]]);
    BigEndian16OfUint16(view[1 + view[0]..3 + view[0]]);
  }

  // ---------------------------------------------------------------------------
  // What a SOCKS5 client sends (RFC 1928 sections 3 to 5), the partner of the
  // checks above.
  // ---------------------------------------------------------------------------

  datatype Destination = V4Dest(octets: Bytes, port: uint16) | DomainDest(name: Bytes, port: uint16)

  /** A destination a client can encode: four octets, or a name whose length fits its length byte. */
  predicate ValidDestination(d: Destination)
  {
    match d
    case V4Dest(octets, _) => |octets| == 4
    case DomainDest(name, _) => |name| < 0x100
  }

  /** A destination parseAddress takes without panicking: an IPv4 address, or a name of at most 252 bytes. */
  predicate ParsableDestination(d: Destination)
  {
    ValidDestination(d) && (d.DomainDest? ==> |d.name| <= MAX_PARSED_NAME)
  }

  function AddressType(d: Destination): uint8
  {
    if d.V4Dest? then ATYP_IPV4 else ATYP_DOMAIN
  }

  /** DST.ADDR followed by DST.PORT. */
  function EncodeAddress(d: Destination): Bytes
    requires ValidDestination(d)
  {
    match d
    case V4Dest(octets, port) => octets + BigEndian16(port)
    case DomainDest(name, port) => [|name|] + name + BigEndian16(port)
  }

  /** The text the proxy makes of a destination's address. */
  function Host(d: Destination): string
    requires ValidDestination(d)
  {
    match d
    case V4Dest(octets, _) => DottedQuad(octets)
    case DomainDest(name, _) => StringOf(name)
  }

  /** Parsing what a client encodes gives its host and port, whatever older
      bytes follow in the buffer. */
  lemma ParseEncodedAddress(d: Destination, tail: Bytes)
    requires ParsableDestination(d)
    ensures ParseAddress(AddressType(d), EncodeAddress(d) + tail, |EncodeAddress(d)|) == Ok((Host(d), d.port))
  {
    var view := EncodeAddress(d) + tail;
    match d
    case V4Dest(octets, port) =>
      assert V4Address(view) == (DottedQuad(octets), port) by {
        assert view[..4] == octets && view[4..6] == BigEndian16(port);
        Ip2LongPacks(octets);
        BigEndian32OfUint32(octets);
        Uint16OfBigEndian16(port);
      }
    case DomainDest(name, port) =>
      assert DomainAddress(view, |name|) == (StringOf(name), port) by {
        assert view[1..1 + |name|] == name;
        assert view[1 + |name|..3 + |name|] == BigEndian16(port);
        Uint16OfBigEndian16(port);
      }
  }

  /** VER, NMETHODS, METHODS. */
  function AuthRequest(methods: Bytes): Bytes
    requires |methods| < 0x100
  {
    [SOCKS_VERSION, |methods|] + methods
  }

  /** The negotiation succeeds exactly when the client offers at least one
      method and "no authentication" is among them. */
  lemma AuthRequestAccepted(methods: Bytes, stale: Bytes)
    requires |methods| < 0x100
    ensures AuthCheck(AuthRequest(methods) + stale, |AuthRequest(methods)|) == Pass
            <==> |methods| > 0 && 0 in methods
  {
    var b := AuthRequest(methods) + stale;
    assert b[2..|AuthRequest(methods)|] == methods;
  }

  /** VER, CMD = CONNECT, RSV, ATYP, DST.ADDR, DST.PORT. */
  function ConnectRequest(d: Destination): Bytes
    requires ValidDestination(d)
  {
    [SOCKS_VERSION, CMD_CONNECT, 0, AddressType(d)] + EncodeAddress(d)
  }

  /** A CONNECT request passes the checks and its address parses back. */
  lemma ConnectRequestAccepted(d: Destination, stale: Bytes)
    requires ParsableDestination(d)
    ensures var b := ConnectRequest(d) + stale;
            var n := |ConnectRequest(d)|;
            RequestCheck(b, n) == Pass && ParseAddress(b[3], b[4..], n - 4) == Ok((Host(d), d.port))
  {
    var b := ConnectRequest(d) + stale;
    assert b[4..] == EncodeAddress(d) + stale;
    ParseEncodedAddress(d, stale);
  }

  /** A client's domain name of 253 to 255 bytes is a panic, though its
      encoding is well-formed and the request passes the checks. */
  lemma LongNameRequestPanics(d: Destination, stale: Bytes)
    requires ValidDestination(d) && d.DomainDest? && |d.name| > MAX_PARSED_NAME
    ensures var b := ConnectRequest(d) + stale;
            var n := |ConnectRequest(d)|;
            RequestCheck(b, n) == Pass && ParseAddress(b[3], b[4..], n - 4) == Err(Panicked)
  {
    var b := ConnectRequest(d) + stale;
    assert b[4] == |d.name|;
    LongDomainPanics(b[4..], |ConnectRequest(d)| - 4);
  }

  // ---------------------------------------------------------------------------
  // The two deployments
  // ---------------------------------------------------------------------------

  /** deployServer's dial string: the parsed address, resolved first when it is a name. */
  function ServerTarget(atype: uint8, view: Bytes, len: nat, resolve: Resolver): Result<string, Error>
    requires len <= |view|
  {
    match ParseAddress(atype, view, len)
    case Err(e) => Err(e)
    case Ok((addr, port)) =>
      if atype == ATYP_DOMAIN then
        match resolve(addr)
        case None => Err(ResolveFailed)
        case Some(ip) => Ok(HostPort(ip, port))
      else Ok(HostPort(addr, port))
  }

  /** An IPv4 destination is dialled directly at its dotted quad and port. */
  lemma ServerTargetV4(octets: Bytes, port: uint16, tail: Bytes, resolve: Resolver)
    requires |octets| == 4
    ensures var d := V4Dest(octets, port);
            var t := ServerTarget(ATYP_IPV4, EncodeAddress(d) + tail, |EncodeAddress(d)|, resolve);
            t == Ok(HostPort(DottedQuad(octets), port))
            && SplitHostPort(t.value) == Some((DottedQuad(octets), port as nat))
  {
    ParseEncodedAddress(V4Dest(octets, port), tail);
    DialDottedQuad(octets, port);
  }

  /** uint32(time.Now().Unix()) % 255: the session key is below 255. */
  function LocalKey(now: int): (k: uint8)
    ensures k < 255
  {
    (now % 0x1_0000_0000) % 255
  }

  /** The forwarding request deployLocal builds before sealing it: the 8-byte
      private header {port, type, addrLen, xorKey} and the address bytes.
      ip2Long panics on an address that is not a dotted quad. */
  function LocalPlain(atype: uint8, addr: string, port: uint16, key: uint8): Result<Bytes, Error>
    requires atype == ATYP_DOMAIN ==> IsByteString(addr)
  {
    if atype == ATYP_IPV4 then
      match Ip2Long(addr)
      case None => Err(Panicked)
      case Some(ip) => Ok(EncodeHeader(Header(port, PRIVATE_V4_ADDR, 4, key)) + BigEndian32(ip))
    else if atype == ATYP_DOMAIN then
      Ok(EncodeHeader(Header(port, PRIVATE_DOMAIN_ADDR, |addr| % 0x100, key)) + BytesOf(addr))
    else Err(UnsupportedAddressType(atype))
  }

  /** The private address type and address bytes a destination travels as. */
  function PrivateType(d: Destination): uint8
  {
    if d.V4Dest? then PRIVATE_V4_ADDR else PRIVATE_DOMAIN_ADDR
  }

  function PrivateAddress(d: Destination): Bytes
  {
    if d.V4Dest? then d.octets else d.name
  }

  /** For a parsed destination the request carries the port, the private
      address type, the address length, the key, and the address bytes the
      client sent. */
  lemma LocalPlainLayout(d: Destination, key: uint8)
    requires ValidDestination(d)
    ensures LocalPlain(AddressType(d), Host(d), d.port, key)
            == Ok(EncodeHeader(Header(d.port, PrivateType(d), |PrivateAddress(d)|, key)) + PrivateAddress(d))
  {
    match d
    case V4Dest(octets, port) =>
      Ip2LongPacks(octets);
      BigEndian32OfUint32(octets);
    case DomainDest(name, port) =>
      BytesOfStringOf(name);
  }

  /** The sealed forwarding request deployLocal writes to the remote end for
      a request, or the error it returns before writing. */
  function LocalRequest(atype: uint8, view: Bytes, len: nat, now: int, encrypt: bool): Result<Bytes, Error>
    requires len <= |view|
  {
    match ParseAddress(atype, view, len)
    case Err(e) => Err(e)
    case Ok((addr, port)) =>
      match LocalPlain(atype, addr, port, LocalKey(now))
      case Err(e) => Err(e)
      case Ok(plain) => Ok(Seal(plain, encrypt))
  }

  // ---------------------------------------------------------------------------
  // What HandShake reads before it deploys
  // ---------------------------------------------------------------------------

  /** The buffer after authMethod's read when the greeting passes its checks,
      or the error authMethod returns before it takes anything. */
  function Greeting(input: seq<ReadEvent>, closed: bool, buff: Bytes): (r: Result<Bytes, Error>)
    requires |buff| == BUFF_SIZE
    ensures r.Ok? ==> |r.value| == BUFF_SIZE
  {
    match NextRead(input, closed, BUFF_SIZE)
    case None => Err(ReadFailed)
    case Some(got) =>
      var b := got + buff[|got|..];
      var check := AuthCheck(b, |got|);
      if check.Fail? then Err(check.error) else Ok(b)
  }

  /** The CONNECT request HandShake holds once authMethod and processRequest
      succeed: the buffer and the length of data = buff[4:n]; or the error
      that ends the handshake before any deployment and any reply. */
  function Negotiation(input: seq<ReadEvent>, takes: seq<WriteEvent>, closed: bool, buff: Bytes): (r: Result<(Bytes, nat), Error>)
    requires |buff| == BUFF_SIZE
    ensures r.Ok? ==> |r.value.0| == BUFF_SIZE && r.value.1 + 4 <= BUFF_SIZE
  {
    match Greeting(input, closed, buff)
    case Err(e) => Err(e)
    case Ok(b) =>
      if !NextWrite(takes, closed, 2).1 then Err(WriteFailed)
      else
        match NextRead(AfterRead(input, closed, BUFF_SIZE), closed, BUFF_SIZE)
        case None => Err(ReadFailed)
        case Some(got) =>
          var b' := got + b[|got|..];
          var check := RequestCheck(b', |got|);
          if check.Fail? then Err(check.error) else Ok((b', |got| - 4))
  }

  /** A client that sends a greeting offering "no authentication" and then a
      CONNECT request for d, each in one segment, gets through negotiation,
      and the request parses to d's host and port; a greeting without method
      0 ends the handshake with NoAcceptableMethod. */
  lemma NegotiationOfClient(methods: Bytes, d: Destination, more: seq<ReadEvent>, takes: seq<WriteEvent>, buff: Bytes)
    requires |methods| < 0x100 && ParsableDestination(d) && |buff| == BUFF_SIZE
    ensures var input := [Chunk(AuthRequest(methods)), Chunk(ConnectRequest(d))] + more;
            var g := Negotiation(input, takes, false, buff);
            (|methods| > 0 && 0 in methods && NextWrite(takes, false, 2).1 ==>
              g.Ok? && g.value.1 == |EncodeAddress(d)| && g.value.0[3] == AddressType(d)
              && ParseAddress(g.value.0[3], g.value.0[4..], g.value.1) == Ok((Host(d), d.port)))
            && (|methods| > 0 && 0 !in methods ==> g == Err(NoAcceptableMethod))
  {
    var input := [Chunk(AuthRequest(methods)), Chunk(ConnectRequest(d))] + more;
    var greet := AuthRequest(methods);
    assert input[0].data[..Min(|greet|, BUFF_SIZE)] == greet;
    var b := greet + buff[|greet|..];
    AuthRequestAccepted(methods, buff[|greet|..]);
    if |methods| > 0 && 0 !in methods {
      assert AuthCheck(b, |greet|) == Fail(NoAcceptableMethod) by {
        assert b[2..|greet|] == methods;
      }
    }
    if |methods| > 0 && 0 in methods && NextWrite(takes, false, 2).1 {
      var req := ConnectRequest(d);
      assert |req| <= BUFF_SIZE by {
        assert |EncodeAddress(d)| <= 3 + MAX_PARSED_NAME;
      }
      assert AfterRead(input, false, BUFF_SIZE) == [Chunk(req)] + more;
      assert req[..Min(|req|, BUFF_SIZE)] == req;
      var b' := req + b[|req|..];
      ConnectRequestAccepted(d, b[|req|..]);
    }
  }

  class Socks5Protocol {
    const conn: Conn
    const buff: array<uint8>
    var auth: AuthHeader
    var req: RequestHeader
    const config: ProtoConfig
    /** The session key of the shared Encryptor. */
    var xorKey: uint8

    /** NewSocks5 */
    constructor (conn: Conn, config: ProtoConfig, xorKey: uint8)
      ensures this.conn == conn && this.config == config && this.xorKey == xorKey
      ensures fresh(buff) && buff.Length == BUFF_SIZE && buff[..] == Zeros(BUFF_SIZE)
      ensures auth == AuthHeader(0, 0) && req == RequestHeader(0, 0, 0, 0)
    {
      this.conn := conn;
      this.config := config;
      this.xorKey := xorKey;
      buff := new uint8[BUFF_SIZE](_ => 0);
      auth := AuthHeader(0, 0);
      req := RequestHeader(0, 0, 0, 0);
      new;
      assert buff[..] == Zeros(BUFF_SIZE);
    }

    /** replyRequest(rsp): one write of the 10-byte reply; the count is not looked at. */
    method ReplyRequest(rsp: uint8) returns (ok: bool)
      modifies conn`writeEvents, conn`sent
      ensures var w := NextWrite(old(conn.writeEvents), conn.closed, 10);
              ok == w.1 && conn.sent == old(conn.sent) + ReplyBytes(rsp)[..w.0]
      ensures conn.writeEvents == AfterWrite(old(conn.writeEvents), conn.closed)
    {
      var m;
      m, ok := conn.Write(ReplyBytes(rsp));
    }

    /** authMethod: read the greeting into buff, check it, answer {5, 0}. */
    method AuthMethod() returns (r: Outcome<Error>)
      requires buff.Length == BUFF_SIZE
      modifies conn`readEvents, conn`writeEvents, conn`sent, buff, this`auth
      ensures conn.readEvents == AfterRead(old(conn.readEvents), conn.closed, BUFF_SIZE)
      ensures var got := NextRead(old(conn.readEvents), conn.closed, BUFF_SIZE);
              got.None? ==> r == Fail(ReadFailed) && auth == old(auth) && buff[..] == old(buff[..])
                            && conn.sent == old(conn.sent) && conn.writeEvents == old(conn.writeEvents)
      ensures var got := NextRead(old(conn.readEvents), conn.closed, BUFF_SIZE);
              got.Some? ==> buff[..] == got.value + old(buff[|got.value|..]) && auth == AuthHeader(buff[0], buff[1])
      ensures var got := NextRead(old(conn.readEvents), conn.closed, BUFF_SIZE);
              got.Some? && AuthCheck(buff[..], |got.value|).Fail? ==>
                r == AuthCheck(buff[..], |got.value|)
                && conn.sent == old(conn.sent) && conn.writeEvents == old(conn.writeEvents)
      ensures var got := NextRead(old(conn.readEvents), conn.closed, BUFF_SIZE);
              var w := NextWrite(old(conn.writeEvents), conn.closed, 2);
              got.Some? && AuthCheck(buff[..], |got.value|) == Pass ==>
                conn.sent == old(conn.sent) + AUTH_REPLY[..w.0]
                && conn.writeEvents == AfterWrite(old(conn.writeEvents), conn.closed)
                && r == (if w.1 then Pass else Fail(WriteFailed))
    {
      var n, ok := conn.Read(buff, 0);
      if !ok {
        return Fail(ReadFailed);
      }
      auth := AuthHeader(buff[0], buff[1]);
      var check := AuthCheck(buff[..], n);
      if check.Fail? {
        return check;
      }
      var m, written := conn.Write(AUTH_REPLY);
      r := if written then Pass else Fail(WriteFailed);
    }

    /** processRequest: read the request into buff, check it, and return the
        length of data = buff[4:n]. */
    method ProcessRequest() returns (r: Result<nat, Error>)
      requires buff.Length == BUFF_SIZE
      modifies conn`readEvents, buff, this`req
      ensures conn.readEvents == AfterRead(old(conn.readEvents), conn.closed, BUFF_SIZE)
      ensures var got := NextRead(old(conn.readEvents), conn.closed, BUFF_SIZE);
              got.None? ==> r == Err(ReadFailed) && req == old(req) && buff[..] == old(buff[..])
      ensures var got := NextRead(old(conn.readEvents), conn.closed, BUFF_SIZE);
              got.Some? ==>
                buff[..] == got.value + old(buff[|got.value|..])
                && req == RequestHeader(buff[0], buff[1], buff[2], buff[3])
                && (RequestCheck(buff[..], |got.value|).Fail? ==> r == Err(RequestCheck(buff[..], |got.value|).error))
                && (RequestCheck(buff[..], |got.value|) == Pass ==> r == Ok(|got.value| - 4))
    {
      var n, ok := conn.Read(buff, 0);
      if !ok {
        return Err(ReadFailed);
      }
      req := RequestHeader(buff[0], buff[1], buff[2], buff[3]);
      var check := RequestCheck(buff[..], n);
      if check.Fail? {
        return Err(check.error);
      }
      return Ok(n - 4);
    }

    /** authMethod, then processRequest: the length of data = buff[4:n], or
        the error that ends the handshake before it deploys. */
    method Negotiate() returns (r: Result<nat, Error>)
      requires buff.Length == BUFF_SIZE
      modifies conn`readEvents, conn`writeEvents, conn`sent, buff, this`auth, this`req
      ensures var g := Negotiation(old(conn.readEvents), old(conn.writeEvents), conn.closed, old(buff[..]));
              (g.Err? ==> r == Err(g.error))
              && (g.Ok? ==> r == Ok(g.value.1) && buff[..] == g.value.0 && req.addressType == buff[3])
      ensures conn.sent == old(conn.sent)
                           + if Greeting(old(conn.readEvents), conn.closed, old(buff[..])).Ok?
                             then AUTH_REPLY[..NextWrite(old(conn.writeEvents), conn.closed, 2).0] else []
      ensures conn.writeEvents == if Greeting(old(conn.readEvents), conn.closed, old(buff[..])).Ok?
                                  then AfterWrite(old(conn.writeEvents), conn.closed) else old(conn.writeEvents)
    {
      var authed := AuthMethod();
      if authed.Fail? {
        return Err(authed.error);
      }
      r := ProcessRequest();
    }

    /** deployServer(data): dial the requested target.  `remote` is what
        net.Dial returns (null when the dial fails), `dialed` what it was given. */
    method DeployServer(view: Bytes, len: nat, resolve: Resolver, remote: Conn?)
      returns (r: Result<Conn, Error>, dialed: Option<string>)
      requires len <= |view|
      ensures var t := ServerTarget(req.addressType, view, len, resolve);
              dialed == (if t.Ok? then Some(t.value) else None)
              && (t.Err? ==> r == Err(t.error))
              && (t.Ok? ==> r == if remote == null then Err(DialFailed) else Ok(remote))
    {
      var parsed := ParseAddress(req.addressType, view, len);
      if parsed.Err? {
        return Err(parsed.error), None;
      }
      var (addr, port) := parsed.value;
      var ip := addr;
      if req.addressType == ATYP_DOMAIN {
        var found := resolve(addr);
        if found.None? {
          return Err(ResolveFailed), None;
        }
        ip := found.value;
      }
      dialed := Some(HostPort(ip, port));
      if remote == null {
        return Err(DialFailed), dialed;
      }
      return Ok(remote), dialed;
    }

    /** deployLocal(data): dial the tunnel's remote end, install a fresh session
        key, and send the sealed forwarding request.  `now` is time.Now().Unix(). */
    method DeployLocal(view: Bytes, len: nat, now: int, remote: Conn?)
      returns (r: Result<Conn, Error>, dialed: Option<string>)
      requires len <= |view|
      modifies this`xorKey, remote
      ensures remote != null ==> remote.readEvents == old(remote.readEvents) && remote.closed == old(remote.closed)
      ensures dialed == Some(config.remoteAddr)
      ensures remote == null ==> r == Err(DialFailed) && xorKey == old(xorKey)
      ensures var p := ParseAddress(req.addressType, view, len);
              remote != null && p.Err? ==>
                r == Err(p.error) && xorKey == old(xorKey) && remote.sent == old(remote.sent)
      ensures var p := ParseAddress(req.addressType, view, len);
              remote != null && p.Ok? ==>
                xorKey == LocalKey(now)
                && var plain := LocalPlain(req.addressType, p.value.0, p.value.1, LocalKey(now));
                   (plain.Err? ==> r == Err(plain.error) && remote.sent == old(remote.sent))
                   && (plain.Ok? ==>
                        var w := NextWrite(old(remote.writeEvents), remote.closed, |plain.value|);
                        remote.sent == old(remote.sent) + Seal(plain.value, config.encrypt)[..w.0]
                        && r == if w.1 then Ok(remote) else Err(WriteFailed))
    {
      dialed := Some(config.remoteAddr);
      if remote == null {
        return Err(DialFailed), dialed;
      }
      var parsed := ParseAddress(req.addressType, view, len);
      if parsed.Err? {
        return Err(parsed.error), dialed;
      }
      var (addr, port) := parsed.value;
      var key := LocalKey(now);
      xorKey := key;
      var plain := LocalPlain(req.addressType, addr, port, key);
      if plain.Err? {
        return Err(plain.error), dialed;
      }
      var buffer := new uint8[|plain.value|](i requires 0 <= i < |plain.value| => plain.value[i]);
      assert buffer[..] == plain.value;
      if config.encrypt {
        assert plain.value == buffer[..buffer.Length];
        Encrypt.Encrypt(buffer, buffer.Length, XOR_KEY);
        assert buffer[..] == buffer[..buffer.Length];
      }
      assert buffer[..] == Seal(plain.value, config.encrypt);
      var m, ok := remote.Write(buffer[..]);
      if !ok {
        return Err(WriteFailed), dialed;
      }
      return Ok(remote), dialed;
    }

    /** The switch on the deployment in HandShake; an unknown deployment dials
        nothing and leaves the remote connection nil with no error. */
    method Deploy(view: Bytes, len: nat, resolve: Resolver, now: int, remote: Conn?)
      returns (d: Result<Conn?, Error>, dialed: Option<string>)
      requires len <= |view|
      modifies this`xorKey, remote
      ensures remote != null ==> remote.readEvents == old(remote.readEvents) && remote.closed == old(remote.closed)
      ensures config.deploy == DEPLOY_SERVER ==>
                var t := ServerTarget(req.addressType, view, len, resolve);
                dialed == (if t.Ok? then Some(t.value) else None) && xorKey == old(xorKey)
                && d == (if t.Err? then Err(t.error) else if remote == null then Err(DialFailed) else Ok(remote))
                && (remote != null ==> remote.sent == old(remote.sent))
      ensures config.deploy == DEPLOY_LOCAL ==>
                var q := LocalRequest(req.addressType, view, len, now, config.encrypt);
                dialed == Some(config.remoteAddr)
                && xorKey == (if remote != null && ParseAddress(req.addressType, view, len).Ok? then LocalKey(now) else old(xorKey))
                && (remote == null ==> d == Err(DialFailed))
                && (remote != null && q.Err? ==> d == Err(q.error) && remote.sent == old(remote.sent))
                && (remote != null && q.Ok? ==>
                      var w := NextWrite(old(remote.writeEvents), remote.closed, |q.value|);
                      remote.sent == old(remote.sent) + q.value[..w.0]
                      && d == if w.1 then Ok(remote) else Err(WriteFailed))
      ensures config.deploy != DEPLOY_SERVER && config.deploy != DEPLOY_LOCAL ==>
                d == Ok(null) && dialed.None? && xorKey == old(xorKey) && (remote != null ==> remote.sent == old(remote.sent))
    {
      if config.deploy == DEPLOY_SERVER {
        var r;
        r, dialed := DeployServer(view, len, resolve, remote);
        d := if r.Ok? then Ok(r.value) else Err(r.error);
      } else if config.deploy == DEPLOY_LOCAL {
        var r;
        r, dialed := DeployLocal(view, len, now, remote);
        d := if r.Ok? then Ok(r.value) else Err(r.error);
      } else {
        d, dialed := Ok(null), None;
      }
    }

    /** HandShake.  `outbound` is the result of the deployment step (None when
        negotiation or the request failed first); `status` is the reply status
        written, and the reply starts at offset `replyStart` of conn.sent. */
    method HandShake(resolve: Resolver, now: int, remote: Conn?)
      returns (r: Result<Conn?, Error>, dialed: Option<string>,
               ghost outbound: Option<Result<Conn?, Error>>, ghost status: Option<uint8>, ghost replyStart: nat)
      requires buff.Length == BUFF_SIZE && remote != conn
      modifies conn`readEvents, conn`writeEvents, conn`sent, buff, this`auth, this`req, this`xorKey, remote
      ensures old(conn.sent) <= conn.sent
      ensures remote != null ==> remote.readEvents == old(remote.readEvents) && remote.closed == old(remote.closed)
      ensures var g := Negotiation(old(conn.readEvents), old(conn.writeEvents), conn.closed, old(buff[..]));
              (g.Err? <==> outbound.None?)
              && (g.Err? ==> r == Err(g.error) && dialed.None? && xorKey == old(xorKey)
                             && (remote != null ==> remote.sent == old(remote.sent)))
              && (g.Ok? ==> buff[..] == g.value.0 && req.addressType == g.value.0[3])
      ensures outbound.None? ==>
                status.None?
                && conn.sent == old(conn.sent)
                                + if Greeting(old(conn.readEvents), conn.closed, old(buff[..])).Ok?
                                  then AUTH_REPLY[..NextWrite(old(conn.writeEvents), conn.closed, 2).0] else []
      ensures outbound.Some? && config.deploy == DEPLOY_SERVER ==>
                var t := ServerTarget(buff[3], buff[4..], Negotiation(old(conn.readEvents), old(conn.writeEvents), conn.closed, old(buff[..])).value.1, resolve);
                dialed == (if t.Ok? then Some(t.value) else None) && xorKey == old(xorKey)
                && outbound.value == (if t.Err? then Err(t.error) else if remote == null then Err(DialFailed) else Ok(remote))
                && (remote != null ==> remote.sent == old(remote.sent))
      ensures outbound.Some? && config.deploy == DEPLOY_LOCAL ==>
                var len := Negotiation(old(conn.readEvents), old(conn.writeEvents), conn.closed, old(buff[..])).value.1;
                var q := LocalRequest(buff[3], buff[4..], len, now, config.encrypt);
                dialed == Some(config.remoteAddr)
                && xorKey == (if remote != null && ParseAddress(buff[3], buff[4..], len).Ok? then LocalKey(now) else old(xorKey))
                && (remote == null ==> outbound.value == Err(DialFailed))
                && (remote != null && q.Err? ==> outbound.value == Err(q.error) && remote.sent == old(remote.sent))
                && (remote != null && q.Ok? ==>
                      var w := NextWrite(old(remote.writeEvents), remote.closed, |q.value|);
                      remote.sent == old(remote.sent) + q.value[..w.0]
                      && outbound.value == if w.1 then Ok(remote) else Err(WriteFailed))
      ensures outbound.Some? && config.deploy != DEPLOY_SERVER && config.deploy != DEPLOY_LOCAL ==>
                outbound.value == Ok(null) && dialed.None? && xorKey == old(xorKey)
      ensures outbound.Some? ==>
                status.Some?
                && conn.sent == old(conn.sent) + AUTH_REPLY[..NextWrite(old(conn.writeEvents), conn.closed, 2).0]
                                + ReplyBytes(status.value)[..NextWrite(AfterWrite(old(conn.writeEvents), conn.closed), conn.closed, 10).0]
      ensures status.Some? ==>
                |old(conn.sent)| <= replyStart <= |conn.sent|
                && conn.sent[|old(conn.sent)|..replyStart] <= AUTH_REPLY
                && conn.sent[replyStart..] <= ReplyBytes(status.value)
      ensures status == Some(1) <==> outbound.Some? && outbound.value.Err?
      ensures status == Some(0) <==> outbound.Some? && outbound.value.Ok?
      ensures outbound.Some? ==>
                r == if outbound.value.Err? || NextWrite(AfterWrite(old(conn.writeEvents), conn.closed), conn.closed, 10).1
                     then outbound.value else Err(WriteFailed)
      ensures r.Ok? ==> outbound == Some(r) && status == Some(0)
      ensures r.Ok? && r.value != null ==> r.value == remote
    {
      outbound, status, replyStart := None, None, 0;
      dialed := None;
      var data := Negotiate();
      if data.Err? {
        return Err(data.error), dialed, outbound, status, replyStart;
      }
      var view := buff[4..];
      var deployed;
      deployed, dialed := Deploy(view, data.value, resolve, now, remote);
      outbound := Some(deployed);
      replyStart := |conn.sent|;
      var st;
      r, st := Respond(deployed);
      status := Some(st);
    }

    /** The reply HandShake sends once the deployment step is done: status 1
        and the deployment's error, or status 0 and the outbound connection
        unless that write fails. */
    method Respond(deployed: Result<Conn?, Error>) returns (r: Result<Conn?, Error>, status: uint8)
      modifies conn`writeEvents, conn`sent
      ensures status == if deployed.Ok? then 0 else 1
      ensures conn.sent == old(conn.sent) + ReplyBytes(status)[..NextWrite(old(conn.writeEvents), conn.closed, 10).0]
      ensures conn.writeEvents == AfterWrite(old(conn.writeEvents), conn.closed)
      ensures r == if deployed.Err? || NextWrite(old(conn.writeEvents), conn.closed, 10).1 then deployed
                   else Err(WriteFailed)
    {
      status := if deployed.Ok? then 0 else 1;
      var ok := ReplyRequest(status);
      r := if deployed.Err? || ok then deployed else Err(WriteFailed);
    }
  }
}
