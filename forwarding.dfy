/** A local deployment and a server deployment in series.  The local end's
    handshake turns the client's request into a private forwarding request;
    the server end runs the private handshake on it and dials the target; the
    two ends then relay with the session keys they each hold. */
module Forwarding {
  import opened Wire
  import opened Text
  import opened Encrypt
  import opened Net
  import opened Protocol
  import Socks5
  import Private
  import Shadowsocks
  import App

  /** A private request written whole by the local end, as the server end reads it. */
  function ServerSees(plain: Bytes, encrypt: bool, resolve: Resolver, rest: seq<ReadEvent>): Private.Processed
  {
    Private.Process([Chunk(Seal(plain, encrypt))] + rest, false, encrypt, resolve)
  }

  /** The private target of a forwarded destination is the address a socks5
      server deployment dials for the same client request. */
  lemma PrivateTargetIsServerTarget(d: Socks5.Destination, key: uint8, resolve: Resolver, tail: Bytes)
    requires Socks5.ParsableDestination(d)
    ensures Private.Target(Header(d.port, Socks5.PrivateType(d), |Socks5.PrivateAddress(d)|, key),
                           Socks5.PrivateAddress(d), resolve)
            == Socks5.ServerTarget(Socks5.AddressType(d), Socks5.EncodeAddress(d) + tail, |Socks5.EncodeAddress(d)|, resolve)
  {
    Socks5.ParseEncodedAddress(d, tail);
    match d
    case V4Dest(octets, port) =>
      BigEndian32OfUint32(octets);
      assert octets[..4] == octets;
    case DomainDest(name, port) =>
  }

  /** A socks5 local end in front of a private server end: the server end reads
      the whole header, takes the local end's session key, dials the address a
      socks5 server deployment would dial for the same client request, and
      leaves the rest of the stream untouched. */
  lemma Socks5ThroughPrivate(d: Socks5.Destination, key: uint8, encrypt: bool, resolve: Resolver,
                             rest: seq<ReadEvent>, tail: Bytes)
    requires Socks5.ParsableDestination(d)
    ensures var plain := Socks5.LocalPlain(Socks5.AddressType(d), Socks5.Host(d), d.port, key);
            plain.Ok?
            && var p := ServerSees(plain.value, encrypt, resolve, rest);
               p.header.Some? && p.header.value.xorKey == key && p.header.value.port == d.port
               && p.result == Socks5.ServerTarget(Socks5.AddressType(d), Socks5.EncodeAddress(d) + tail,
                                                  |Socks5.EncodeAddress(d)|, resolve)
               && p.rest == rest
  {
    var a := Socks5.PrivateAddress(d);
    var h := Header(d.port, Socks5.PrivateType(d), |a|, key);
    var plain := Socks5.LocalPlain(Socks5.AddressType(d), Socks5.Host(d), d.port, key);
    assert plain == Ok(EncodeHeader(h) + a) by {
      Socks5.LocalPlainLayout(d, key);
    }
    var p := ServerSees(EncodeHeader(h) + a, encrypt, resolve, rest);
    assert p.header == Some(h) && p.result == Private.Target(h, a, resolve) && p.rest == rest by {
      Private.ProcessWholeRequest(h, a, encrypt, resolve, rest);
    }
    PrivateTargetIsServerTarget(d, key, resolve, tail);
  }

  /** The request the Shadowsocks local end forwards, laid out: a header with
      port 0 and key 0 followed by the address the client sent. */
  lemma SsLocalPlainLayout(d: Socks5.Destination)
    requires Socks5.ValidDestination(d)
    ensures Shadowsocks.SsLocalPlain(Socks5.AddressType(d), Socks5.Host(d))
            == Ok(EncodeHeader(Header(0, Socks5.PrivateType(d), |Socks5.PrivateAddress(d)|, 0)) + Socks5.PrivateAddress(d))
  {
    match d
    case V4Dest(octets, port) =>
      Ip2LongPacks(octets);
      BigEndian32OfUint32(octets);
    case DomainDest(name, port) =>
      BytesOfStringOf(name);
  }

  /** A Shadowsocks local end in front of a private server end: the server end
      dials the requested host at port 0 and takes session key 0, whatever the
      client asked for and whatever key the local end drew. */
  lemma ShadowsocksThroughPrivate(d: Socks5.Destination, encrypt: bool, resolve: Resolver, rest: seq<ReadEvent>)
    requires Socks5.ValidDestination(d)
    ensures var plain := Shadowsocks.SsLocalPlain(Socks5.AddressType(d), Socks5.Host(d));
            plain.Ok?
            && var p := ServerSees(plain.value, encrypt, resolve, rest);
               p.header.Some? && p.header.value.xorKey == 0 && p.header.value.port == 0
               && p.rest == rest
               && (d.V4Dest? ==> p.result == Ok(HostPort(DottedQuad(d.octets), 0))
                                 && SplitHostPort(p.result.value) == Some((DottedQuad(d.octets), 0)))
  {
    var a := Socks5.PrivateAddress(d);
    var h := Header(0, Socks5.PrivateType(d), |a|, 0);
    SsLocalPlainLayout(d);
    Private.ProcessWholeRequest(h, a, encrypt, resolve, rest);
    if d.V4Dest? {
      assert a[..4] == d.octets;
      DialDottedQuad(d.octets, 0);
    }
  }

  lemma ByteIsOwnLowByte(k: uint8)
    ensures k % 0x100 == k
  {
  }

  /** The relay policies of the two ends, with encryption on or off at both. */
  function LocalPolicy(encrypt: bool): App.Policy
  {
    App.NewServerPolicy(App.Config(DEPLOY_LOCAL, PROTO_SOCKS5, encrypt, "", ""))
  }

  function ServerPolicy(encrypt: bool): App.Policy
  {
    App.NewServerPolicy(App.Config(DEPLOY_SERVER, PROTO_PRIVATE, encrypt, "", ""))
  }

  /** With socks5 at the local end the two ends hold the same session key, so
      every chunk crosses the relay unchanged in both directions, with
      encryption on or off. */
  lemma Socks5RelayIsTransparent(d: Socks5.Destination, now: int, encrypt: bool, resolve: Resolver,
                                 rest: seq<ReadEvent>, b: Bytes)
    requires Socks5.ParsableDestination(d)
    ensures var plain := Socks5.LocalPlain(Socks5.AddressType(d), Socks5.Host(d), d.port, Socks5.LocalKey(now));
            plain.Ok?
            && var serverKey := ServerSees(plain.value, encrypt, resolve, rest).header.value.xorKey % 0x100;
               App.ChunkTransform(App.ChunkTransform(b, LocalPolicy(encrypt), Socks5.LocalKey(now)), ServerPolicy(encrypt), serverKey) == b
               && App.ChunkTransform(App.ChunkTransform(b, ServerPolicy(encrypt), serverKey), LocalPolicy(encrypt), Socks5.LocalKey(now)) == b
  {
    var key := Socks5.LocalKey(now);
    Socks5ThroughPrivate(d, key, encrypt, resolve, rest, []);
    var plain := Socks5.LocalPlain(Socks5.AddressType(d), Socks5.Host(d), d.port, key).value;
    assert ServerSees(plain, encrypt, resolve, rest).header.value.xorKey % 0x100 == key by {
      ByteIsOwnLowByte(key);
    }
    App.EndToEndTransparent(b, key, encrypt, "", "", PROTO_SOCKS5);
  }

  /** With Shadowsocks at the local end, encryption on and a clock whose key
      is not zero, the server end decrypts with key 0 what the local end
      encrypted with its own key: no non-empty chunk survives the relay, in
      either direction.  With encryption off neither end transforms, and
      every chunk crosses unchanged. */
  lemma ShadowsocksRelayGarbles(d: Socks5.Destination, now: int, encrypt: bool, resolve: Resolver,
                                rest: seq<ReadEvent>, b: Bytes)
    requires Socks5.ValidDestination(d) && b != [] && Shadowsocks.SsKey(now) != 0
    ensures var plain := Shadowsocks.SsLocalPlain(Socks5.AddressType(d), Socks5.Host(d));
            plain.Ok?
            && var serverKey := ServerSees(plain.value, encrypt, resolve, rest).header.value.xorKey % 0x100;
               var there := App.ChunkTransform(App.ChunkTransform(b, LocalPolicy(encrypt), Shadowsocks.SsKey(now)), ServerPolicy(encrypt), serverKey);
               var back := App.ChunkTransform(App.ChunkTransform(b, ServerPolicy(encrypt), serverKey), LocalPolicy(encrypt), Shadowsocks.SsKey(now));
               (encrypt ==> there != b && back != b)
               && (!encrypt ==> there == b && back == b)
  {
    ShadowsocksThroughPrivate(d, encrypt, resolve, rest);
    if encrypt {
      WrongKeyGarbles(b, Shadowsocks.SsKey(now), 0);
    }
  }
}
