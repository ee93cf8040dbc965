/** What the handshakes of protocol/ share: the deployment and protocol
    enumerations with their names, the per-connection configuration, the
    8-byte private forwarding header, the IPv4 conversions between a 32-bit
    number and its dotted-quad text, and the errors a handshake can end in. */
module Protocol {
  import opened Wire
  import opened Text
  import opened Encrypt

  // ---------------------------------------------------------------------------
  // Enumerations
  // ---------------------------------------------------------------------------

  /** DeployType is a uint8; only two values are named. */
  const DEPLOY_LOCAL: uint8 := 0
  const DEPLOY_SERVER: uint8 := 1

  /** DeployType.String: the named deployments map to their names, every other value to "UNKNOW". */
  function DeployTypeString(p: uint8): (s: string)
    ensures s == "DEPLOY_LOCAL" <==> p == DEPLOY_LOCAL
    ensures s == "DEPLOY_SERVER" <==> p == DEPLOY_SERVER
    ensures s == "UNKNOW" <==> p != DEPLOY_LOCAL && p != DEPLOY_SERVER
  {
    if p == DEPLOY_LOCAL then "DEPLOY_LOCAL"
    else if p == DEPLOY_SERVER then "DEPLOY_SERVER"
    else "UNKNOW"
  }

  const PROTO_PASS: uint8 := 0
  const PROTO_SOCKS5: uint8 := 1
  const PROTO_SS: uint8 := 2
  const PROTO_PRIVATE: uint8 := 3

  /** ProtoType.String: the four named protocols map to their names, every other value to "UNKNOW". */
  function ProtoTypeString(p: uint8): (s: string)
    ensures s == "PROTO_PASS" <==> p == PROTO_PASS
    ensures s == "PROTO_SOCKS5" <==> p == PROTO_SOCKS5
    ensures s == "PROTO_SS" <==> p == PROTO_SS
    ensures s == "PROTO_PRIVATE" <==> p == PROTO_PRIVATE
    ensures s == "UNKNOW" <==> p > PROTO_PRIVATE
  {
    if p == PROTO_PASS then "PROTO_PASS"
    else if p == PROTO_SOCKS5 then "PROTO_SOCKS5"
    else if p == PROTO_SS then "PROTO_SS"
    else if p == PROTO_PRIVATE then "PROTO_PRIVATE"
    else "UNKNOW"
  }

  /** The address types of RFC 1928 section 5 that the socks5 and Shadowsocks
      front ends read: an IPv4 address and a domain name. */
  const ATYP_IPV4: uint8 := 1
  const ATYP_DOMAIN: uint8 := 3

  /** Address types of the private header. */
  const PRIVATE_V4_ADDR: uint8 := 1
  const PRIVATE_DOMAIN_ADDR: uint8 := 2

  /** ProtoConfig.  The shared Encryptor the source threads through it is
      modelled by the session key each handshake object holds. */
  datatype ProtoConfig = ProtoConfig(deploy: uint8, remoteAddr: string, encrypt: bool)

  /** The DNS lookup (queryDns): the first address of a name, or None when the lookup fails. */
  type Resolver = string -> Option<string>

  datatype Error =
    | ReadFailed
    | WriteFailed
    | DialFailed
    | ResolveFailed
    | BadAuthVersion
    | NoAcceptableMethod
    | BadRequest
    | UnsupportedAddressType(atype: uint8)
    | Panicked

  // ---------------------------------------------------------------------------
  // NaiveEncrypt / NaiveDecrypt: the transform under the fixed XOR_KEY, applied
  // to the handshake's forwarding request iff encryption is configured.
  // ---------------------------------------------------------------------------

  function Seal(b: Bytes, encrypt: bool): (r: Bytes)
    ensures |r| == |b|
  {
    if encrypt then Encrypted(b, XOR_KEY) else b
  }

  function Unseal(b: Bytes, encrypt: bool): (r: Bytes)
    ensures |r| == |b|
  {
    if encrypt then Decrypted(b, XOR_KEY) else b
  }

  /** The receiving side, configured alike, recovers what the sending side sealed. */
  lemma UnsealSeal(b: Bytes, encrypt: bool)
    ensures Unseal(Seal(b, encrypt), encrypt) == b
  {
    if encrypt {
      DecryptedEncrypted(b, XOR_KEY);
    }
  }

  /** Sealing works piecewise, so a header and the address after it can be unsealed apart. */
  lemma SealAppend(a: Bytes, b: Bytes, encrypt: bool)
    ensures Seal(a + b, encrypt) == Seal(a, encrypt) + Seal(b, encrypt)
  {
    if encrypt {
      EncryptedAppend(a, b, XOR_KEY);
    }
  }

  // ---------------------------------------------------------------------------
  // PrivateProtoHeader as binary.Write lays it out, big-endian: Port (2 bytes),
  // Type (1), AddrLen (1), XorKey (4).
  // ---------------------------------------------------------------------------

  datatype Header = Header(port: uint16, addrType: uint8, addrLen: uint8, xorKey: uint32)

  const HEADER_SIZE: nat := 8

  function EncodeHeader(h: Header): (b: Bytes)
    ensures |b| == HEADER_SIZE
  {
    BigEndian16(h.port) + [h.addrType, h.addrLen] + BigEndian32(h.xorKey)
  }

  function DecodeHeader(b: Bytes): Header
    requires |b| == HEADER_SIZE
  {
    Header(Uint16(b[..2]), b[2], b[3], Uint32(b[4..]))
  }

  /** Decoding an encoded header gives every field back. */
  lemma DecodeEncodeHeader(h: Header)
    ensures DecodeHeader(EncodeHeader(h)) == h
  {
    var b := EncodeHeader(h);
    assert b[..2] == BigEndian16(h.port);
    assert b[4..] == BigEndian32(h.xorKey);
    Uint16OfBigEndian16(h.port);
    Uint32OfBigEndian32(h.xorKey);
  }

  /** Every 8 bytes are the encoding of the header they decode to. */
  lemma EncodeDecodeHeader(b: Bytes)
    requires |b| == HEADER_SIZE
    ensures EncodeHeader(DecodeHeader(b)) == b
  {
    BigEndian16OfUint16(b[..2]);
    BigEndian32OfUint32(b[4..]);
    assert b == b[..2] + [b[2], b[3]] + b[4..];
  }

  /** The session key the receiver takes is the last header byte: uint8(XorKey)
      keeps the low 8 bits and ignores the upper 24. */
  lemma SessionKeyIsLastHeaderByte(b: Bytes)
    requires |b| == HEADER_SIZE
    ensures DecodeHeader(b).xorKey % 0x100 == b[7]
  {
    LowByteIsLast(b[4..]);
  }

  // ---------------------------------------------------------------------------
  // long2IP and ip2Long
  // ---------------------------------------------------------------------------

  /** long2IP: the dotted quad of the four big-endian bytes. */
  function Long2IP(x: uint32): string
  {
    DottedQuad(BigEndian32(x))
  }

  /** ip2Long.  Only a dotted quad has a 4-byte form; for anything else To4
      yields nil and binary.BigEndian.Uint32 panics, which is None here. */
  function Ip2Long(s: string): Option<uint32>
  {
    match ParseIPv4(s)
    case None => None
    case Some(octets) => Some(Uint32(octets))
  }

  /** long2IP writes the big-endian bytes of its argument as dotted decimal. */
  lemma Long2IPOctets(x: uint32)
    ensures ParseIPv4(Long2IP(x)) == Some(BigEndian32(x))
  {
    ParseDottedQuad(BigEndian32(x));
  }

  /** ip2Long(long2IP(x)) == x for every 32-bit x. */
  lemma Ip2LongOfLong2IP(x: uint32)
    ensures Ip2Long(Long2IP(x)) == Some(x)
  {
    Long2IPOctets(x);
    Uint32OfBigEndian32(x);
  }

  /** ip2Long of a dotted quad is the big-endian packing of its octets. */
  lemma Ip2LongPacks(octets: Bytes)
    requires |octets| == 4
    ensures Ip2Long(DottedQuad(octets)) == Some(Uint32(octets))
  {
    ParseDottedQuad(octets);
  }

  /** Every string ip2Long accepts is the text long2IP writes for the result. */
  lemma Long2IPOfIp2Long(s: string)
    requires Ip2Long(s).Some?
    ensures Long2IP(Ip2Long(s).value) == s
  {
    var octets := ParseIPv4(s).value;
    BigEndian32OfUint32(octets);
    DottedQuadOfParse(s);
  }
}
