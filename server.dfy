/** The relay of app/server.go: the direction policy fixed when the server is
    made, the pump that copies one direction of a proxied connection, and the
    choice of front-end protocol for an accepted connection. */
module App {
  import opened Wire
  import opened Encrypt
  import opened Net
  import opened Protocol
  import Socks5
  import Private
  import Shadowsocks

  /** app.Config */
  datatype Config = Config(deploy: uint8, protocol: uint8, encrypt: bool, remoteAddr: string, listen: string)

  /** Whether a chunk is decrypted after it is read and encrypted before it is written. */
  datatype Policy = Policy(recvDecrypt: bool, sendEncrypt: bool)

  /** NewServer: a server deployment with encryption decrypts what it reads, a
      local deployment with encryption encrypts what it writes. */
  function NewServerPolicy(c: Config): (p: Policy)
    ensures p.recvDecrypt <==> c.deploy == DEPLOY_SERVER && c.encrypt
    ensures p.sendEncrypt <==> c.deploy == DEPLOY_LOCAL && c.encrypt
  {
    Policy(c.deploy == DEPLOY_SERVER && c.encrypt, c.deploy == DEPLOY_LOCAL && c.encrypt)
  }

  /** No deployment both decrypts and encrypts. */
  lemma PolicyNeverBoth(c: Config)
    ensures !(NewServerPolicy(c).recvDecrypt && NewServerPolicy(c).sendEncrypt)
  {
  }

  /** What transfer does to a chunk buff[:n], with the session key. */
  function ChunkTransform(b: Bytes, p: Policy, key: uint8): (r: Bytes)
    ensures |r| == |b|
  {
    var d := if p.recvDecrypt then Decrypted(b, key) else b;
    if p.sendEncrypt then Encrypted(d, key) else d
  }

  /** The transform works byte by byte, so how the stream is cut into chunks does not matter. */
  lemma ChunkTransformAppend(a: Bytes, b: Bytes, p: Policy, key: uint8)
    ensures ChunkTransform(a + b, p, key) == ChunkTransform(a, p, key) + ChunkTransform(b, p, key)
  {
    DecryptedAppend(a, b, key);
    var da := if p.recvDecrypt then Decrypted(a, key) else a;
    var db := if p.recvDecrypt then Decrypted(b, key) else b;
    EncryptedAppend(da, db, key);
  }

  /** With the same key and encryption on at both ends, the local end's pumps
      and the server end's pumps undo each other in either direction, so the
      relay is transparent to the client and the target. */
  lemma EndToEndTransparent(b: Bytes, key: uint8, encrypt: bool, remoteAddr: string, listen: string, proto: uint8)
    ensures var local := NewServerPolicy(Config(DEPLOY_LOCAL, proto, encrypt, remoteAddr, listen));
            var server := NewServerPolicy(Config(DEPLOY_SERVER, proto, encrypt, remoteAddr, listen));
            ChunkTransform(ChunkTransform(b, local, key), server, key) == b
            && ChunkTransform(ChunkTransform(b, server, key), local, key) == b
  {
    DecryptedEncrypted(b, key);
    EncryptedDecrypted(b, key);
  }

  // ---------------------------------------------------------------------------
  // The pump
  // ---------------------------------------------------------------------------

  /** make([]byte, 0x10000) */
  const BUFFER_SIZE: nat := 0x10000

  /** What the write loop sends of `data`, whether it finished, and the write script left. */
  datatype Written = Written(sent: Bytes, ok: bool, takes: seq<WriteEvent>)

  /** The write loop: write data[i:n] and advance i by the count taken, until
      i reaches n or a write fails. */
  function WriteAll(takes: seq<WriteEvent>, closed: bool, data: Bytes): Written
    decreases |takes|
  {
    if data == [] then Written([], true, takes)
    else
      var w := NextWrite(takes, closed, |data|);
      if !w.1 then Written([], false, AfterWrite(takes, closed))
      else
        var rest := WriteAll(takes[1..], closed, data[w.0..]);
        Written(data[..w.0] + rest.sent, rest.ok, rest.takes)
  }

  /** The write loop sends a prefix of its data, and all of it when it finishes. */
  lemma {:induction false} WriteAllSendsPrefix(takes: seq<WriteEvent>, closed: bool, data: Bytes)
    ensures var r := WriteAll(takes, closed, data);
            r.sent <= data && (r.ok ==> r.sent == data)
    decreases |takes|
  {
    if data != [] && NextWrite(takes, closed, |data|).1 {
      var m := NextWrite(takes, closed, |data|).0;
      WriteAllSendsPrefix(takes[1..], closed, data[m..]);
      assert data == data[..m] + data[m..];
    }
  }

  function Shift(prefix: Bytes, w: Written): Written
  {
    Written(prefix + w.sent, w.ok, w.takes)
  }

  lemma ShiftTwice(a: Bytes, b: Bytes, w: Written)
    ensures Shift(a, Shift(b, w)) == Shift(a + b, w)
  {
    assert a + (b + w.sent) == (a + b) + w.sent;
  }

  /** One successful write of m bytes leaves data[m:] to the rest of the script. */
  lemma WriteAllStep(takes: seq<WriteEvent>, closed: bool, data: Bytes)
    requires data != [] && NextWrite(takes, closed, |data|).1
    ensures var m := NextWrite(takes, closed, |data|).0;
            AfterWrite(takes, closed) == takes[1..]
            && WriteAll(takes, closed, data) == Shift(data[..m], WriteAll(takes[1..], closed, data[m..]))
  {
  }

  /** Everything one direction delivers: read up to 0x10000 bytes, transform
      them, write them all; stop at the first failed read or write. */
  function Pump(script: seq<ReadEvent>, closed: bool, takes: seq<WriteEvent>, dclosed: bool, p: Policy, key: uint8): Bytes
    decreases Pending(script)
  {
    match NextRead(script, closed, BUFFER_SIZE)
    case None => []
    case Some(d) =>
      ReadStep(script, closed, BUFFER_SIZE);
      var w := WriteAll(takes, dclosed, ChunkTransform(d, p, key));
      if !w.ok then w.sent
      else w.sent + Pump(AfterRead(script, closed, BUFFER_SIZE), closed, w.takes, dclosed, p, key)
  }

  /** The write loop after a successful write of m bytes of what is left:
      `done` grows by those m bytes and the rest shrinks by them. */
  lemma WriteAdvances(closed: bool, done: Bytes, rest: Bytes, before: seq<WriteEvent>)
    requires rest != [] && NextWrite(before, closed, |rest|).1
    ensures var m := NextWrite(before, closed, |rest|).0;
            AfterWrite(before, closed) == before[1..]
            && Shift(done, WriteAll(before, closed, rest))
               == Shift(done + rest[..m], WriteAll(before[1..], closed, rest[m..]))
  {
    var m := NextWrite(before, closed, |rest|).0;
    WriteAllStep(before, closed, rest);
    ShiftTwice(done, rest[..m], WriteAll(before[1..], closed, rest[m..]));
  }

  /** The write loop's outcome when a write fails. */
  lemma WriteFails(closed: bool, done: Bytes, rest: Bytes, before: seq<WriteEvent>)
    requires rest != [] && !NextWrite(before, closed, |rest|).1
    ensures Shift(done, WriteAll(before, closed, rest)) == Written(done, false, AfterWrite(before, closed))
  {
    assert done + [] == done;
  }

  /** The write loop's outcome once i reaches n. */
  lemma WriteDone(closed: bool, chunk: Bytes, now: seq<WriteEvent>)
    ensures Shift(chunk[..|chunk|], WriteAll(now, closed, chunk[|chunk|..])) == Written(chunk, true, now)
  {
    assert chunk[|chunk|..] == [] && chunk[..|chunk|] == chunk && chunk + [] == chunk;
  }

  lemma AppendAssociates(a: Bytes, b: Bytes, c: Bytes)
    ensures a + (b + c) == (a + b) + c
  {
  }

  /** One round of the pump: the chunk read, transformed and written, then the rest. */
  lemma PumpStep(script: seq<ReadEvent>, closed: bool, takes: seq<WriteEvent>, dclosed: bool, p: Policy, key: uint8)
    ensures var r := NextRead(script, closed, BUFFER_SIZE);
            var pump := Pump(script, closed, takes, dclosed, p, key);
            (r.None? ==> pump == [])
            && (r.Some? ==>
                  var w := WriteAll(takes, dclosed, ChunkTransform(r.value, p, key));
                  pump == if w.ok then w.sent + Pump(AfterRead(script, closed, BUFFER_SIZE), closed, w.takes, dclosed, p, key)
                          else w.sent)
  {
  }

  /** The destination receives, in order, a prefix of the transformed stream of the source. */
  lemma {:induction false} PumpIsPrefix(script: seq<ReadEvent>, closed: bool, takes: seq<WriteEvent>, dclosed: bool, p: Policy, key: uint8)
    ensures Pump(script, closed, takes, dclosed, p, key) <= ChunkTransform(Incoming(script, closed), p, key)
    decreases Pending(script)
  {
    match NextRead(script, closed, BUFFER_SIZE)
    case None =>
    case Some(d) =>
      ReadStep(script, closed, BUFFER_SIZE);
      var after := AfterRead(script, closed, BUFFER_SIZE);
      ChunkTransformAppend(d, Incoming(after, closed), p, key);
      var w := WriteAll(takes, dclosed, ChunkTransform(d, p, key));
      WriteAllSendsPrefix(takes, dclosed, ChunkTransform(d, p, key));
      if w.ok {
        PumpIsPrefix(after, closed, w.takes, dclosed, p, key);
      }
  }

  /** A destination that takes every write whole, with at least as many writes
      as the source can deliver reads. */
  predicate Reliable(takes: seq<WriteEvent>, dclosed: bool, script: seq<ReadEvent>)
  {
    !dclosed && |takes| >= Pending(script)
    && forall i :: 0 <= i < |takes| ==> takes[i].Accept? && takes[i].count >= BUFFER_SIZE
  }

  /** When every write succeeds, the destination receives exactly the
      transformed stream of the source, in order. */
  lemma {:induction false} PumpDeliversAll(script: seq<ReadEvent>, closed: bool, takes: seq<WriteEvent>, dclosed: bool, p: Policy, key: uint8)
    requires Reliable(takes, dclosed, script)
    ensures Pump(script, closed, takes, dclosed, p, key) == ChunkTransform(Incoming(script, closed), p, key)
    decreases Pending(script)
  {
    match NextRead(script, closed, BUFFER_SIZE)
    case None =>
      ReadStep(script, closed, BUFFER_SIZE);
    case Some(d) =>
      ReadStep(script, closed, BUFFER_SIZE);
      var after := AfterRead(script, closed, BUFFER_SIZE);
      ChunkTransformAppend(d, Incoming(after, closed), p, key);
      var c := ChunkTransform(d, p, key);
      var w := WriteAll(takes, dclosed, c);
      var rest := if c == [] then takes else takes[1..];
      if c != [] {
        assert |d| <= BUFFER_SIZE;
        assert takes[0].Accept? && takes[0].count >= BUFFER_SIZE;
        assert NextWrite(takes, dclosed, |c|) == (|c|, true);
        WriteAllStep(takes, dclosed, c);
        assert c[|c|..] == [] && c[..|c|] == c;
        assert WriteAll(takes[1..], dclosed, c[|c|..]) == Written([], true, takes[1..]);
        assert w == Written(c + [], true, takes[1..]);
      }
      assert w == Written(c, true, rest);
      PumpDeliversAll(after, closed, rest, dclosed, p, key);
  }

  /** One pass of the write loop: conn.Write(buff[i:n]). */
  method WriteStep(dst: Conn, chunk: Bytes, i: nat, ghost start: Bytes, ghost target: Written)
    returns (m: nat, written: bool)
    requires i < |chunk|
    requires dst.sent == start + chunk[..i]
    requires target == Shift(chunk[..i], WriteAll(dst.writeEvents, dst.closed, chunk[i..]))
    modifies dst`writeEvents, dst`sent
    ensures written ==>
              i + m <= |chunk| && |dst.writeEvents| < |old(dst.writeEvents)|
              && dst.sent == start + chunk[..i + m]
              && target == Shift(chunk[..i + m], WriteAll(dst.writeEvents, dst.closed, chunk[i + m..]))
    ensures !written ==> dst.sent == start + chunk[..i] && target == Written(chunk[..i], false, dst.writeEvents)
  {
    ghost var before := dst.writeEvents;
    ghost var closed := dst.closed;
    ghost var done := chunk[..i];
    var rest := chunk[i..];
    m, written := dst.Write(rest);
    if !written {
      WriteFails(closed, done, rest, before);
      assert rest[..0] == [] && done + [] == done;
      return;
    }
    WriteAdvances(closed, done, rest, before);
    assert done + rest[..m] == chunk[..i + m];
    assert rest[m..] == chunk[i + m..];
    AppendAssociates(start, done, rest[..m]);
  }

  /** The write loop of transfer for the chunk buff[:n]. */
  method WriteChunk(dst: Conn, chunk: Bytes) returns (ok: bool)
    modifies dst`writeEvents, dst`sent
    ensures var w := WriteAll(old(dst.writeEvents), dst.closed, chunk);
            ok == w.ok && dst.sent == old(dst.sent) + w.sent && dst.writeEvents == w.takes
  {
    ghost var target := WriteAll(dst.writeEvents, dst.closed, chunk);
    var i: nat := 0;
    assert chunk[..0] + target.sent == target.sent;
    while i < |chunk|
      invariant i <= |chunk|
      invariant dst.sent == old(dst.sent) + chunk[..i]
      invariant target == Shift(chunk[..i], WriteAll(dst.writeEvents, dst.closed, chunk[i..]))
      decreases |dst.writeEvents|
    {
      var m, written := WriteStep(dst, chunk, i, old(dst.sent), target);
      if !written {
        return false;
      }
      i := i + m;
    }
    WriteDone(dst.closed, chunk, dst.writeEvents);
    return true;
  }

  /** The outcome of protocolHandshake: an unknown protocol is refused, a failed
      handshake ends the connection, a handshake that succeeded without a
      remote connection leaves the relay nothing to copy to, and otherwise the
      two pumps run between the client and `remote`. */
  datatype Session = Unsupported | HandshakeFailed(error: Error) | NilRemote | Relay(remote: Conn)

  class Server {
    const config: Config
    const recvDecrypt: bool
    const sendEncrypt: bool
    /** The key of the Encryptor the server shares with its handshakes. */
    var xorKey: uint8

    /** NewServer, without the listener. */
    constructor (config: Config)
      ensures this.config == config && Policy(recvDecrypt, sendEncrypt) == NewServerPolicy(config)
      ensures xorKey == 0
    {
      this.config := config;
      recvDecrypt := config.deploy == DEPLOY_SERVER && config.encrypt;
      sendEncrypt := config.deploy == DEPLOY_LOCAL && config.encrypt;
      xorKey := 0;
    }

    /** The transform step of transfer, in place on buff[:n]. */
    method TransformChunk(buff: array<uint8>, n: nat)
      requires n <= buff.Length
      modifies buff
      ensures buff[..n] == ChunkTransform(old(buff[..n]), Policy(recvDecrypt, sendEncrypt), xorKey)
      ensures buff[n..] == old(buff[n..])
    {
      if recvDecrypt {
        Decrypt(buff, n, xorKey);
      }
      if sendEncrypt {
        Encrypt.Encrypt(buff, n, xorKey);
      }
    }

    /** The read and the transform of one round: buff[:n] holds the
        transformed chunk when the read succeeds. */
    method ReadChunk(src: Conn, buff: array<uint8>) returns (n: nat, ok: bool)
      requires buff.Length == BUFFER_SIZE
      modifies src`readEvents, buff
      ensures var r := NextRead(old(src.readEvents), src.closed, BUFFER_SIZE);
              ok == r.Some? && src.readEvents == AfterRead(old(src.readEvents), src.closed, BUFFER_SIZE)
              && (ok ==> n <= buff.Length && buff[..n] == ChunkTransform(r.value, Policy(recvDecrypt, sendEncrypt), xorKey))
    {
      ghost var script := src.readEvents;
      n, ok := src.Read(buff, 0);
      if !ok {
        return;
      }
      assert buff[..n] == NextRead(script, src.closed, BUFFER_SIZE).value;
      TransformChunk(buff, n);
    }

    /** One round of transfer's loop: a read, the transform, the write loop.
        `more` is false when the read or a write failed. */
    method PumpRound(src: Conn, dst: Conn, buff: array<uint8>) returns (more: bool)
      requires src != dst && buff.Length == BUFFER_SIZE
      modifies src`readEvents, dst`writeEvents, dst`sent, buff
      ensures var p := Policy(recvDecrypt, sendEncrypt);
              old(dst.sent) + Pump(old(src.readEvents), src.closed, old(dst.writeEvents), dst.closed, p, xorKey)
              == dst.sent + if more then Pump(src.readEvents, src.closed, dst.writeEvents, dst.closed, p, xorKey) else []
      ensures Pending(src.readEvents) <= Pending(old(src.readEvents))
      ensures more ==> Pending(src.readEvents) < Pending(old(src.readEvents))
    {
      var p := Policy(recvDecrypt, sendEncrypt);
      ghost var script := src.readEvents;
      ghost var takes := dst.writeEvents;
      ghost var sent := dst.sent;
      PumpStep(script, src.closed, takes, dst.closed, p, xorKey);
      ReadStep(script, src.closed, BUFFER_SIZE);
      var n, ok := ReadChunk(src, buff);
      if !ok {
        assert sent + [] == sent;
        return false;
      }
      ghost var w := WriteAll(takes, dst.closed, buff[..n]);
      more := WriteChunk(dst, buff[..n]);
      if !more {
        assert sent + w.sent + [] == sent + w.sent;
        return;
      }
      ghost var tail := Pump(src.readEvents, src.closed, w.takes, dst.closed, p, xorKey);
      AppendAssociates(sent, w.sent, tail);
    }

    /** transfer(src, dst): pump src into dst until a read or a write fails,
        then close both. */
    method Transfer(src: Conn, dst: Conn)
      requires src != dst
      modifies src`readEvents, src`closed, dst`writeEvents, dst`sent, dst`closed
      ensures dst.sent == old(dst.sent) + Pump(old(src.readEvents), old(src.closed), old(dst.writeEvents), old(dst.closed),
                                               Policy(recvDecrypt, sendEncrypt), xorKey)
      ensures src.closed && dst.closed
    {
      var p := Policy(recvDecrypt, sendEncrypt);
      ghost var total := dst.sent + Pump(src.readEvents, src.closed, dst.writeEvents, dst.closed, p, xorKey);
      var buff := new uint8[BUFFER_SIZE](_ => 0);
      var more := true;
      while more
        invariant src.closed == old(src.closed) && dst.closed == old(dst.closed)
        invariant total == dst.sent + if more then Pump(src.readEvents, src.closed, dst.writeEvents, dst.closed, p, xorKey) else []
        decreases Pending(src.readEvents), more
      {
        more := PumpRound(src, dst, buff);
      }
      assert dst.sent + [] == dst.sent;
      dst.Close();
      src.Close();
    }

    /** protocolHandshake: pick the front end, run its handshake with the
        server's key, and take back the key it installs.  `remote` is what
        net.Dial returns to the handshake (null when the dial fails). */
    method ProtocolHandshake(conn: Conn, resolve: Resolver, now: int, remote: Conn?) returns (s: Session)
      requires remote != conn
      modifies this`xorKey, conn, remote
      ensures config.protocol > PROTO_PRIVATE <==> s == Unsupported
      ensures s == Unsupported ==> xorKey == old(xorKey) && conn.sent == old(conn.sent) && conn.readEvents == old(conn.readEvents)
      ensures s.Relay? ==> s.remote == remote
      ensures config.protocol == PROTO_PASS ==> s == if remote == null then HandshakeFailed(DialFailed) else Relay(remote)
      ensures config.protocol == PROTO_PASS ==> xorKey == old(xorKey) && conn.sent == old(conn.sent)
      ensures config.protocol == PROTO_PRIVATE ==>
                var p := Private.Process(old(conn.readEvents), old(conn.closed), config.encrypt, resolve);
                xorKey == (if p.header.Some? then p.header.value.xorKey % 0x100 else old(xorKey))
                && (p.result.Err? ==> s == HandshakeFailed(p.result.error))
                && (p.result.Ok? ==> s == if remote == null then HandshakeFailed(DialFailed) else Relay(remote))
      ensures config.protocol == PROTO_SOCKS5 ==>
                var g := Socks5.Negotiation(old(conn.readEvents), old(conn.writeEvents), old(conn.closed), Zeros(Socks5.BUFF_SIZE));
                var replied := NextWrite(AfterWrite(old(conn.writeEvents), old(conn.closed)), old(conn.closed), 10).1;
                (g.Err? ==> s == HandshakeFailed(g.error) && xorKey == old(xorKey))
                && (g.Ok? && config.deploy == DEPLOY_SERVER ==>
                      var t := Socks5.ServerTarget(g.value.0[3], g.value.0[4..], g.value.1, resolve);
                      xorKey == old(xorKey)
                      && s == if t.Err? then HandshakeFailed(t.error) else if remote == null then HandshakeFailed(DialFailed)
                              else if replied then Relay(remote) else HandshakeFailed(WriteFailed))
                && (g.Ok? && config.deploy == DEPLOY_LOCAL ==>
                      var q := Socks5.LocalRequest(g.value.0[3], g.value.0[4..], g.value.1, now, config.encrypt);
                      xorKey == (if remote != null && Socks5.ParseAddress(g.value.0[3], g.value.0[4..], g.value.1).Ok?
                                 then Socks5.LocalKey(now) else old(xorKey))
                      && s == if remote == null then HandshakeFailed(DialFailed) else if q.Err? then HandshakeFailed(q.error)
                              else if !NextWrite(old(remote.writeEvents), old(remote.closed), |q.value|).1 then HandshakeFailed(WriteFailed)
                              else if replied then Relay(remote) else HandshakeFailed(WriteFailed))
                && (g.Ok? && config.deploy != DEPLOY_SERVER && config.deploy != DEPLOY_LOCAL ==>
                      xorKey == old(xorKey) && s == if replied then NilRemote else HandshakeFailed(WriteFailed))
      ensures config.protocol == PROTO_SS ==>
                var p := Shadowsocks.SsRead(old(conn.readEvents), old(conn.closed));
                conn.sent == old(conn.sent)
                && (p.err.Some? ==> s == HandshakeFailed(p.err.value) && xorKey == old(xorKey))
                && (p.err.None? && config.deploy == DEPLOY_SERVER ==>
                      var t := Shadowsocks.SsServerTarget(p.atype, p.addr, p.port, resolve);
                      xorKey == old(xorKey)
                      && s == if t.Err? then HandshakeFailed(t.error) else if remote == null then HandshakeFailed(DialFailed)
                              else Relay(remote))
                && (p.err.None? && config.deploy == DEPLOY_LOCAL ==>
                      var plain := Shadowsocks.SsLocalPlain(p.atype, p.addr);
                      xorKey == (if remote != null then Shadowsocks.SsKey(now) else old(xorKey))
                      && s == if remote == null then HandshakeFailed(DialFailed) else if plain.Err? then HandshakeFailed(plain.error)
                              else if NextWrite(old(remote.writeEvents), old(remote.closed), |plain.value|).1 then Relay(remote)
                              else HandshakeFailed(WriteFailed))
                && (p.err.None? && config.deploy != DEPLOY_SERVER && config.deploy != DEPLOY_LOCAL ==>
                      xorKey == old(xorKey) && s == NilRemote)
    {
      var pConfig := ProtoConfig(config.deploy, config.remoteAddr, config.encrypt);
      var r: Result<Conn?, Error>;
      if config.protocol == PROTO_SOCKS5 {
        var proto := new Socks5.Socks5Protocol(conn, pConfig, xorKey);
        var dialed;
        ghost var outbound, status, replyStart;
        r, dialed, outbound, status, replyStart := proto.HandShake(resolve, now, remote);
        xorKey := proto.xorKey;
      } else if config.protocol == PROTO_PRIVATE {
        var proto := new Private.PrivateProtocol(conn, pConfig, xorKey);
        var got, dialed := proto.HandShake(resolve, remote);
        r := if got.Ok? then Ok(got.value) else Err(got.error);
        xorKey := proto.xorKey;
      } else if config.protocol == PROTO_SS {
        var proto := new Shadowsocks.SSProtocol(conn, pConfig, xorKey);
        var dialed;
        r, dialed := proto.HandShake(resolve, now, remote);
        xorKey := proto.xorKey;
      } else if config.protocol == PROTO_PASS {
        // PassProtocol.HandShake dials RemoteAddr and reads nothing
        r := if remote == null then Err(DialFailed) else Ok(remote);
      } else {
        return Unsupported;
      }
      if r.Err? {
        return HandshakeFailed(r.error);
      }
      if r.value == null {
        return NilRemote;
      }
      return Relay(r.value);
    }
  }
}
