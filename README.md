# socks-go: the proxy's wire logic in Dafny

socks-go is a TCP proxy deployed in two halves.
- A **local** end accepts clients that speak SOCKS5 (RFC 1928) or a Shadowsocks-style address header.
- It forwards each request to a **server** end as an 8-byte *private* header plus the address bytes, optionally obfuscated.
- The server end decodes the request, dials the target and relays.
- Both ends relay with a per-session byte transform: rotate left 3, reverse the bits, XOR a key.

This project models that core and proves properties of the model:

| module | file | models |
|---|---|---|
| `Wire` | wire.dfy | byte types, big-endian integers (`binary.BigEndian`), Go strings as byte strings |
| `Text` | text.dfy | decimal numbers, dotted-quad IPv4 text (`net.IP.String`, `net.ParseIP`), `"host:port"` dial strings |
| `Encrypt` | encrypt.dfy | the obfuscation transform, both as a byte map and as the in-place array loops |
| `Net` | net.dfy | a connection (`net.Conn`) as a class with scripted reads and writes; `io.ReadFull` |
| `Protocol` | protocol.dfy | constants, enum names, the private header codec, `long2IP` and `ip2Long` |
| `Socks5` | socks5.dfy | method negotiation, the CONNECT request, address parsing, the reply, both deployments and `HandShake` |
| `Shadowsocks` | ss.dfy | the address-header reader as a cursor over the stream, both deployments and `HandShake` |
| `Private` | private.dfy | `processRequest` (header, key, address loop, target string) and `HandShake` |
| `App` | server.dfy | the relay direction policy, the single-direction pump `transfer`, and `protocolHandshake` |
| `Forwarding` | forwarding.dfy | a local end and a server end in series |

Modelling conventions:
- A connection is a `Conn` object whose reads follow a script of events. Each event is a chunk of bytes or an error.
  - A read takes at most the room in the buffer; the rest of a chunk stays pending.
  - The peer takes a prefix of each write, or fails it.
  - `sent` records what the peer received.
- `net.Dial` is a `Conn?` parameter, where null is a failed dial. Each handshake also reports the address it dialled.
- `queryDns` is a `Resolver` function that may fail.
- `time.Now().Unix()` is a `now` parameter.
- A Go runtime panic (a slice out of range) is the error `Panicked` of the one session.
- `ProtoConfig` has no `Encryptor` field in protocol/protocol.go:58-62, so each protocol object carries its session key as an `xorKey` field. `App.Server` takes the key back after the handshake.
- `NaiveEncrypt`/`NaiveDecrypt` of the unseen `Encryptor` type are the transform with the fixed key `XOR_KEY` = 0b10110010 = 178 (`Protocol.Seal`/`Unseal`). The relay's `Encrypt`/`Decrypt` use the session key.

What the model shows about the two halves together (`Forwarding`):
- With SOCKS5 at the local end, the server end recovers the client's destination and the local end's session key, whether or not encryption is on. The relay is then transparent in both directions.
- With Shadowsocks at the local end, the forwarded header carries port 0 and key 0. This is because ss.go `deployLocal` never assigns them.
  - So the server end dials port 0.
  - With encryption on and a local key that is not 0, no non-empty chunk crosses the relay intact. With encryption off, neither end transforms, so chunks cross unchanged.
  - Both facts are proved as written.
- socks5 `parseAddress` computes `1+alen` and `3+alen` in uint8. For a name of 253, 254 or 255 bytes the sums wrap and the slice panics (`Socks5.LongDomainPanics`), so only names of up to 252 bytes get through a socks5 front end.
- The private address loop refills its buffer from index 0 on every read. So an address that arrives in two segments ends with the second segment, followed by zeros (`Private.SplitAddressIsOverwritten`).

## Model

| member | source | states |
|---|---|---|
| `Wire.Uint16OfBigEndian16` | protocol/socks5.go:58 | decoding a big-endian 16-bit port gives back the port that was encoded |
| `Wire.BigEndian16OfUint16` | protocol/socks5.go:58 | every 2-byte field is the encoding of the port it decodes to |
| `Wire.Uint32OfBigEndian32` | protocol/protocol.go:66-67 | decoding the big-endian encoding of a 32-bit value gives the value back |
| `Wire.BigEndian32OfUint32` | protocol/protocol.go:75 | every 4-byte field is the encoding of the value it decodes to |
| `Wire.LowByteIsLast` | protocol/private.go:45 | the low 8 bits of a big-endian 32-bit field are its last byte |
| `Wire.BytesOfStringOf` | protocol/socks5.go:61 | converting bytes to a Go string and back gives the same bytes |
| `Wire.StringOfBytesOf` | protocol/socks5.go:190 | converting a byte string to bytes and back gives the same string |
| `Text.DecimalRoundTrip` | protocol/private.go:73 | the decimal text of n is canonical (digits only, no leading zero) and reads back as n |
| `Text.DecimalOfValue` | protocol/private.go:73 | every canonical decimal string is the decimal text of its value |
| `Text.DecimalInjective` | protocol/private.go:73 | different numbers have different decimal texts |
| `Text.SplitJoin` | protocol/protocol.go:68-69 | splitting the join of separator-free parts gives back the parts |
| `Text.JoinSplit` | protocol/protocol.go:73 | joining the fields of a split gives back the string, and no field holds the separator |
| `Text.JoinAvoids` | protocol/protocol.go:68-69 | a character absent from every part and different from the separator is absent from the join |
| `Text.ParseDottedQuad` | protocol/protocol.go:68-73 | parsing the dotted quad of four octets gives the octets back |
| `Text.DottedQuadOfParse` | protocol/protocol.go:73-74 | every string that parses as IPv4 is the dotted quad of its octets |
| `Text.SplitHostPortOfHostPort` | protocol/socks5.go:155-156 | the dial string of a host without a colon splits back into the same host and port |
| `Text.DialDottedQuad` | protocol/private.go:73 | the dial string of a dotted quad splits back into the dotted quad and the port |
| `Text.HostWithColonIsRejected` | protocol/ss.go:127-128 | a dial string built from a host that holds a colon is rejected |
| `Encrypt.Reverse8Mirrors` | encrypt/encrypt.go:10 | bit i of the reversed byte is bit 7-i of the byte |
| `Encrypt.Reverse8Involution` | encrypt/encrypt.go:10-18 | reversing the bits twice restores the byte |
| `Encrypt.RotateInverse` | encrypt/encrypt.go:9-19 | rotating left 3 and rotating right 3 undo each other, in either order |
| `Encrypt.DecryptEncryptBits` | encrypt/encrypt.go:9-19 | the decrypt steps undo the encrypt steps under one key |
| `Encrypt.EncryptDecryptBits` | encrypt/encrypt.go:9-19 | the encrypt steps undo the decrypt steps under one key |
| `Encrypt.DecryptEncryptByte` | encrypt/encrypt.go:9-19 | decrypting an encrypted byte with the same key gives the byte back |
| `Encrypt.EncryptDecryptByte` | encrypt/encrypt.go:9-19 | encrypting a decrypted byte with the same key gives the byte back |
| `Encrypt.EncryptByteBijective` | encrypt/encrypt.go:9-11 | for each key the byte map is one-to-one and onto the 256 byte values |
| `Encrypt.EncryptedAt` | encrypt/encrypt.go:8-12 | byte i of the encrypted buffer is the encrypted byte i of the input, and nothing else |
| `Encrypt.DecryptedAt` | encrypt/encrypt.go:16-20 | byte i of the decrypted buffer is the decrypted byte i of the input, and nothing else |
| `Encrypt.EncryptedAppend` | encrypt/encrypt.go:8-12 | encrypting a concatenation is concatenating the encrypted parts |
| `Encrypt.DecryptedAppend` | encrypt/encrypt.go:16-20 | decrypting a concatenation is concatenating the decrypted parts |
| `Encrypt.DecryptedEncrypted` | encrypt/encrypt.go:7-21 | decrypting an encrypted buffer with the same key restores every buffer |
| `Encrypt.EncryptedDecrypted` | encrypt/encrypt.go:7-21 | encrypting a decrypted buffer with the same key restores every buffer |
| `Encrypt.EncryptedInjective` | encrypt/encrypt.go:7-13 | two buffers that encrypt alike under one key are equal |
| `Encrypt.EncryptByteKeyed` | encrypt/encrypt.go:11 | under two different keys a byte encrypts to two different bytes |
| `Encrypt.EncryptedKeyed` | encrypt/encrypt.go:7-13 | a non-empty buffer encrypts differently under two different keys |
| `Encrypt.WrongKeyGarbles` | encrypt/encrypt.go:7-21 | undoing a transform with a key other than the one applied never restores a non-empty buffer, in either order |
| `Encrypt.Encrypt` | encrypt/encrypt.go:7-13 | the loop leaves the encrypted prefix `data[:n]` and does not touch the rest of the array |
| `Encrypt.Decrypt` | encrypt/encrypt.go:15-21 | the loop leaves the decrypted prefix `data[:n]` and does not touch the rest of the array |
| `Net.NextRead` | app/server.go:59 | a read returns at most as many bytes as the buffer has room for |
| `Net.ReadStep` | app/server.go:59-62 | a read never adds pending input. A successful read consumes input and returns the front of what is still to arrive. A failed read means nothing more arrives |
| `Net.NextWrite` | app/server.go:70 | a write accepts at most the bytes offered, and a failed write accepts none |
| `Net.Conn.Read` | app/server.go:59 | the read bytes land at `buf[lo:]`, the rest of the buffer is untouched, and the script advances |
| `Net.Conn.Write` | app/server.go:70 | the peer receives the accepted prefix of the data |
| `Net.Conn.Close` | app/server.go:54-55 | the connection is closed |
| `Net.Gather` | protocol/ss.go:51 | `io.ReadFull` for n bytes returns exactly n bytes, and they are the front of the incoming stream |
| `Net.ReadFull` | protocol/ss.go:51 | the loop fills the buffer with what `Gather` gives, fails exactly when it fails, and leaves the script it leaves |
| `Net.ReadMore` | protocol/ss.go:51 | one read of the loop keeps the buffer's prefix plus the rest of the gather equal to the whole gather, and consumes input |
| `Net.ReadFromChunk` | protocol/ss.go:41 | a read from a chunk that is already waiting takes the bytes at the cursor and moves the cursor |
| `Net.GatherFromChunk` | protocol/ss.go:51 | gathering from a chunk that holds enough bytes takes them at the cursor |
| `Protocol.DeployTypeString` | protocol/protocol.go:20-29 | each deploy constant maps to its name, and every other value maps to "UNKNOW" (both directions) |
| `Protocol.ProtoTypeString` | protocol/protocol.go:38-51 | each protocol constant maps to its name, and every other value maps to "UNKNOW" (both directions) |
| `Protocol.UnsealSeal` | protocol/private.go:35-37 | the server's `NaiveDecrypt` undoes the local end's `NaiveEncrypt`, and with encryption off both are the identity |
| `Protocol.SealAppend` | protocol/socks5.go:197-200 | sealing header and address together is sealing each and concatenating |
| `Protocol.EncodeHeader` | protocol/private.go:10-15 | the header encodes to exactly 8 bytes |
| `Protocol.DecodeEncodeHeader` | protocol/private.go:39-43 | decoding an encoded header gives the header back |
| `Protocol.EncodeDecodeHeader` | protocol/private.go:39-43 | every 8 bytes are the encoding of the header they decode to |
| `Protocol.SessionKeyIsLastHeaderByte` | protocol/private.go:45 | the session key taken from a header, the low 8 bits of XorKey, is the header's last byte |
| `Protocol.Long2IPOctets` | protocol/protocol.go:65-70 | `long2IP(x)` is the dotted form of the four big-endian bytes of x |
| `Protocol.Ip2LongOfLong2IP` | protocol/protocol.go:65-76 | `ip2Long(long2IP(x)) == x` for every 32-bit x |
| `Protocol.Ip2LongPacks` | protocol/protocol.go:72-76 | `ip2Long` of a dotted quad is the big-endian packing of its octets |
| `Protocol.Long2IPOfIp2Long` | protocol/protocol.go:65-76 | every string that `ip2Long` accepts is `long2IP` of its value |
| `Socks5.EncodeReply` | protocol/socks5.go:29-36 | the request reply encodes to exactly 10 bytes |
| `Socks5.ReplyLayout` | protocol/socks5.go:70-80 | the reply is {5, rsp, 0, 1, 0,0,0,0, 0,0} |
| `Socks5.AuthCheck` | protocol/socks5.go:99-106 | negotiation passes exactly when the version is 5, nmethods is not 0 and a 0 byte occurs in `buff[2:n]`. It fails with the version error exactly when the version or nmethods is wrong |
| `Socks5.RequestCheck` | protocol/socks5.go:134-138 | the request passes exactly when the version is 5 and cmd is 1 (the reserved byte is not checked). It fails with the request error exactly when the version or cmd is wrong |
| `Socks5.ParseAddress` | protocol/socks5.go:51-68 | only atype 1 or 3 can succeed, and any other atype is the unsupported-type error. A domain result is a byte string shorter than 256 |
| `Socks5.LongDomainPanics` | protocol/socks5.go:60-62 | a length byte of 253, 254 or 255 makes atype 3 panic, whatever the buffer holds, because the wrapped slice bounds are out of order |
| `Socks5.DomainAddress` | protocol/socks5.go:60-62 | the domain is a byte string of exactly the length byte's size |
| `Socks5.ParseAddressV4` | protocol/socks5.go:55-58 | atype 1 gives the dotted quad of `data[0:4]` (which parses back to those octets) and the big-endian port `data[4:6]` |
| `Socks5.ParseAddressDomain` | protocol/socks5.go:59-62 | atype 3 with a length byte of at most 252 gives the bytes `data[1:1+len]` and the big-endian port `data[1+len:3+len]` |
| `Socks5.ParseEncodedAddress` | protocol/socks5.go:51-68 | parsing what a client encodes for an IPv4 address or a name of at most 252 bytes gives its host and port, whatever stale bytes follow in the buffer |
| `Socks5.AuthRequestAccepted` | protocol/socks5.go:87-119 | a client greeting is accepted exactly when it offers at least one method and 0 is among them |
| `Socks5.ConnectRequestAccepted` | protocol/socks5.go:122-139 | a CONNECT request for an IPv4 address or a name of at most 252 bytes passes the check, and its address parses to the client's host and port |
| `Socks5.LongNameRequestPanics` | protocol/socks5.go:122-139 | a CONNECT request for a name of 253 to 255 bytes passes the check, and then its address parse panics |
| `Socks5.ServerTargetV4` | protocol/socks5.go:141-161 | a server deployment dials "a.b.c.d:port" for an IPv4 request, and the dial string splits back into the quad and the port |
| `Socks5.LocalKey` | protocol/socks5.go:177 | the key the local end draws is below 255 |
| `Socks5.LocalPlainLayout` | protocol/socks5.go:177-197 | the forwarded request is the 8-byte header {port, type 1 with length 4 and the packed IP, or type 2 with the name's length, key} followed by the address bytes |
| `Socks5.Negotiation` | protocol/socks5.go:87-139 | the request buffer and the length of `buff[4:n]` once both reads, both checks and the auth reply succeed, or the first error; the buffer is 512 bytes and the data fits after the 4-byte header |
| `Socks5.NegotiationOfClient` | protocol/socks5.go:87-139 | a client that offers method 0 and then sends a CONNECT request gets through negotiation, and the request parses to its host and port; a greeting without method 0 ends with the no-method error |
| `Socks5.Socks5Protocol.constructor` | protocol/socks5.go:46-48 | a new session has a zeroed 512-byte buffer and the given connection, config and key |
| `Socks5.Socks5Protocol.ReplyRequest` | protocol/socks5.go:70-85 | one write of the 10-byte reply. The peer receives the accepted prefix, and the result is the write's success |
| `Socks5.Socks5Protocol.AuthMethod` | protocol/socks5.go:87-119 | a failed read or a failed check writes nothing. A passing check writes {5, 0} (or its accepted prefix), and the result is the write's success |
| `Socks5.Socks5Protocol.ProcessRequest` | protocol/socks5.go:122-139 | a failed read or check is an error. Otherwise the result is the length of the address bytes after the 4-byte request header |
| `Socks5.Socks5Protocol.Negotiate` | protocol/socks5.go:209-218 | the result and the buffer are those of `Negotiation` on the input; the client receives the auth reply only after a passing greeting |
| `Socks5.Socks5Protocol.DeployServer` | protocol/socks5.go:141-161 | the dialled address is the parsed (and, for domains, resolved) "host:port". Parse and resolve errors are returned before any dial |
| `Socks5.Socks5Protocol.DeployLocal` | protocol/socks5.go:163-207 | dials the tunnel first and installs `LocalKey(now)` after a successful parse. Sends the forwarded request sealed iff Encrypt, and nothing on a parse error |
| `Socks5.Socks5Protocol.Deploy` | protocol/socks5.go:219-224 | a server deployment dials `ServerTarget` of the request, keeps the key and writes nothing to the remote. A local deployment dials the tunnel, installs `LocalKey(now)` after a successful parse and sends the sealed request `LocalRequest`. Any other deployment yields a nil connection without dialling |
| `Socks5.Socks5Protocol.Respond` | protocol/socks5.go:225-235 | reply status 1 and the deployment's error when it failed. Otherwise status 0, and the connection unless that reply cannot be written. The client receives exactly the accepted prefix of `ReplyBytes(status)` |
| `Socks5.Socks5Protocol.HandShake` | protocol/socks5.go:209-236 | the handshake ends before any deployment and any request reply exactly when `Negotiation` of the input fails, with its error. Otherwise each deployment dials, keys and sends as `Deploy` states for the parsed request. One reply follows, status 1 iff the deployment failed. The result is the deployment's outcome, or the write error of a status-0 reply. On that path the client receives exactly the accepted prefix of the auth reply {5, 0} followed by the accepted prefix of the 10-byte reply with that status |
| `Shadowsocks.ParseSsHeader` | protocol/ss.go:11-20 | a parsed header never claims more bytes than the input holds |
| `Shadowsocks.ParseEncodedSsHeader` | protocol/ss.go:11-20 | parsing an encoded header gives the address type, host, port and header length |
| `Shadowsocks.SsReadOneSegment` | protocol/ss.go:39-76 | a header that arrives in one segment is read as the header parser reads it, and what follows stays pending |
| `Shadowsocks.SsReadV4OneSegment` | protocol/ss.go:49-56 | atype 1 consumes exactly 6 bytes: the big-endian IP, then the big-endian port |
| `Shadowsocks.SsReadDomainOneSegment` | protocol/ss.go:57-70 | atype 3 consumes one length byte and then len+2 bytes: the name, then the big-endian port |
| `Shadowsocks.SsReadEncoded` | protocol/ss.go:39-76 | reading an encoded header recovers the client's address type, host and port without error |
| `Shadowsocks.SsReadFailureIsSilent` | protocol/ss.go:39-43 | for every script whose type-byte read fails, the parse returns zero values and no error, and a server deployment then dials ":0" |
| `Shadowsocks.SsDomainReadFailures` | protocol/ss.go:57-70 | for atype 3 a failed length-byte read is an error, and a failed read of the name and port returns zero values and no error |
| `Shadowsocks.SsForwardedPortAndKeyAreZero` | protocol/ss.go:84-107 | the forwarded header carries port 0 and key 0, followed by the address bytes |
| `Shadowsocks.SSProtocol.constructor` | protocol/ss.go:34-36 | a new session holds the given connection, config and key |
| `Shadowsocks.SSProtocol.ParseAddress` | protocol/ss.go:39-76 | the method's results and the remaining stream are those of the cursor reader `SsRead` |
| `Shadowsocks.SSProtocol.ReadV4` | protocol/ss.go:49-56 | the atype 1 branch matches `SsReadV4` |
| `Shadowsocks.SSProtocol.ReadDomain` | protocol/ss.go:57-70 | the atype 3 branch matches `SsReadDomain` |
| `Shadowsocks.SSProtocol.ReadDomainBody` | protocol/ss.go:64-70 | the name-and-port read matches `SsReadDomainBody`, including the zero-value return on a failed read |
| `Shadowsocks.SSProtocol.DeployLocal` | protocol/ss.go:78-114 | dials the tunnel first and installs `t mod 256`. Sends the forwarded request sealed iff Encrypt |
| `Shadowsocks.SSProtocol.DeployServer` | protocol/ss.go:116-133 | the dialled address is "ip:port", with the domain resolved first. A resolve error is returned before any dial |
| `Shadowsocks.SSProtocol.HandShake` | protocol/ss.go:136-153 | writes nothing to the client, and a parse error is returned with no dial and the key kept. A server deployment returns the target's error, the dial error or the dialled connection. A local deployment dials the tunnel, installs `SsKey(now)` and sends the sealed `SsLocalPlain` header, and succeeds iff that write does. Any other deployment yields nil |
| `Private.AddrReads` | protocol/private.go:47-54 | when the address loop completes, the buffer keeps its length |
| `Private.Target` | protocol/private.go:60-73 | the target is an error exactly when a type 1 address is short, a type 2 name does not resolve, or the type is unknown |
| `Private.TargetDialsHostAndPort` | protocol/private.go:60-73 | a type 1 target splits into the dotted quad of the first 4 address bytes and the header's port. A type 2 target splits into the resolved host and the port |
| `Private.PrivateProtocol.constructor` | protocol/private.go:23-26 | a new session has a zero header and the given connection, config and key |
| `Private.PrivateProtocol.ReadAgain` | protocol/private.go:49-53 | one pass of the address loop, which reads into the buffer from index 0 and counts the bytes |
| `Private.PrivateProtocol.ReadAddress` | protocol/private.go:47-54 | the loop leaves in the buffer exactly what `AddrReads` describes, and fails exactly when it fails |
| `Private.PrivateProtocol.ReadHeader` | protocol/private.go:29-43 | one read of 8 bytes, decrypted iff Encrypt and decoded big-endian |
| `Private.PrivateProtocol.ProcessRequest` | protocol/private.go:28-75 | the result and the remaining stream are those of `Process`. The header and the session key (the low 8 bits of XorKey) are taken as soon as the header decodes |
| `Private.PrivateProtocol.HandShake` | protocol/private.go:77-89 | the handshake dials exactly the target `processRequest` computes, and returns its errors without dialling |
| `Private.ProcessWholeRequest` | protocol/private.go:28-75 | a request sent whole and sealed with the same Encrypt setting decodes to its header and its target, and leaves the rest of the stream |
| `Private.SplitAddressIsOverwritten` | protocol/private.go:47-54 | an address in two segments ends as the second segment followed by zeros |
| `Private.SplitNameIsCorrupted` | protocol/private.go:47-54 | "example.com" sent as "examp" then "le.com" is not what the server end decodes |
| `App.NewServerPolicy` | app/server.go:28-36 | decrypt on receive iff a server deployment with encryption. Encrypt on send iff a local deployment with encryption |
| `App.PolicyNeverBoth` | app/server.go:28-36 | the two policy flags are never both set |
| `App.ChunkTransform` | app/server.go:63-68 | the transform keeps the chunk's length |
| `App.ChunkTransformAppend` | app/server.go:63-68 | transforming a split stream chunk by chunk is transforming it whole |
| `App.EndToEndTransparent` | app/server.go:28-68 | with one key, encryption on or off, the local end's transform followed by the server end's is the identity, in both directions |
| `App.WriteAllSendsPrefix` | app/server.go:69-75 | the write loop sends a prefix of the chunk, in order, and the whole chunk when it succeeds |
| `App.WriteAdvances` | app/server.go:70-74 | after a write of m bytes the loop's outcome is unchanged once `done` grows by those m bytes |
| `App.PumpIsPrefix` | app/server.go:57-76 | dst receives a prefix of the transformed incoming stream, whatever the reads and writes do |
| `App.PumpDeliversAll` | app/server.go:57-76 | when every write succeeds, dst receives exactly the transformed chunks concatenated in read order |
| `App.WriteStep` | app/server.go:70-74 | one pass of the write loop |
| `App.WriteChunk` | app/server.go:69-75 | the write loop's result, what dst receives and the write events it leaves are those of `WriteAll` |
| `App.Server.constructor` | app/server.go:18-39 | the policy flags are `NewServerPolicy(config)` and the session key starts at 0 |
| `App.Server.TransformChunk` | app/server.go:63-68 | `buff[:n]` is decrypted iff recvDecrypt and then encrypted iff sendEncrypt. The rest of the buffer is untouched |
| `App.Server.ReadChunk` | app/server.go:59-68 | one read into the 64 KiB buffer followed by the transform of `buff[:n]` |
| `App.Server.PumpRound` | app/server.go:58-76 | one round of the loop keeps what dst has received plus what the rest of the pump will send equal to the whole pump, and consumes input |
| `App.Server.Transfer` | app/server.go:53-77 | dst receives exactly what `Pump` describes, and both connections are closed on return |
| `App.Server.ProtocolHandshake` | app/server.go:79-110 | an unknown protocol kind is the only case that runs no handshake, and it changes nothing. A socks5 front end fails with the negotiation error, the target's error, the dial error, the forwarding write's error or the reply's write error, and otherwise relays to the dialled remote; a local deployment takes `LocalKey(now)` once the address parses. A private front end takes the header's key and relays exactly when its request succeeds. A Shadowsocks front end writes nothing back, fails with the parse, target, dial or write error, takes `SsKey(now)` when it deploys locally, and otherwise relays. A pass front end relays to the dialled remote |
| `Forwarding.PrivateTargetIsServerTarget` | protocol/private.go:60-73 | for an IPv4 address or a name of at most 252 bytes, the target the server end computes from a forwarded socks5 request is the address a socks5 server deployment dials for the same request |
| `Forwarding.Socks5ThroughPrivate` | protocol/private.go:28-75 | a socks5 local end in front of a private server end, for an IPv4 address or a name of at most 252 bytes: the server end decodes the whole header, takes the local end's key and the client's port, dials the same target, and leaves the rest of the stream |
| `Forwarding.SsLocalPlainLayout` | protocol/ss.go:84-104 | the Shadowsocks local end forwards a header with port 0 and key 0, followed by the client's address bytes |
| `Forwarding.ShadowsocksThroughPrivate` | protocol/private.go:28-75 | behind a Shadowsocks local end the server end takes key 0 and port 0, and dials "a.b.c.d:0" for an IPv4 request |
| `Forwarding.Socks5RelayIsTransparent` | app/server.go:63-68 | with socks5 at the local end, every chunk crosses the relay unchanged in both directions, with encryption on or off |
| `Forwarding.ShadowsocksRelayGarbles` | app/server.go:63-68 | with Shadowsocks at the local end, encryption on and a key that is not 0, no non-empty chunk crosses the relay intact, in either direction; with encryption off every chunk crosses unchanged |

## Left out

- main.go: command-line flag parsing and process exit.
- Process termination on a panic. A Go panic in the `protocolHandshake` goroutine (app/server.go:49) is not recovered, so it ends the whole process and every other session. Examples are a short socks5 buffer, a socks5 name of 253 to 255 bytes, a private type 1 request with `AddrLen < 4`, and `ip2Long` on a nil `To4`. The model returns `HandshakeFailed(Panicked)` for that one session and does not capture the end of the others.
- server/server.go: an older server that calls functions the protocol package does not define. Its copy loop is the same as app/server.go's.
- app/server.go `Run` and the `net.Listen` in `NewServer` (app/server.go:19-22, 41-51): listening and the accept loop are network I/O. The constructor takes the config only.
- The two concurrent pumps (app/server.go:108-109). `ProtocolHandshake` returns a `Relay` session instead of starting them, and `Transfer` models one direction.
- The single `encryptor` shared by every connection of a server (app/server.go:15,85). The model gives each session its own key, so one session changing the shared key does not affect another.
- protocol/pass.go: `PassProtocol.HandShake` only dials `RemoteAddr`. It is modelled inline as the pass case of `ProtocolHandshake`.
- `queryDns` (protocol/protocol.go:78-85) is the `Resolver` parameter. Only its answer or its failure is modelled, not DNS lookup.
- `net.Dial` is a `Conn?` parameter. Each handshake reports the address it dials but does not open a connection.
- `time.Now().Unix()` is the `now` parameter of `Socks5.LocalKey` and `Shadowsocks.SsKey`.
- `net.ParseIP` accepts more than dotted quads: IPv6, and IPv4-mapped IPv6 text that `To4` folds to IPv4. `Protocol.Ip2Long` accepts dotted quads only and yields None on any other input. The deployments turn None into `Panicked`, as the Go code panics on a nil `To4`. Their input always comes from `long2IP`, which writes a dotted quad.
- `binary.Read`/`binary.Write` reflection becomes explicit big-endian encoders and decoders.
- Error messages are error constructors, not text.
- `Socks5.Socks5Protocol.Respond`: the result of the status-1 reply write is not looked at, as in the Go code. For status 1 the contract states the bytes the peer received and the deployment's error, not whether that write failed.
- `Net.Conn.Write`: a partial write with no error is a shorter accepted prefix. The relay's write loop retries the rest, as the Go code does.
- The remote connection that socks5 and ss `deployLocal` leave open after a parse or write error is not closed in the Go code. The model does not track it.
- The `else` branch of socks5 `deployLocal` for an unsupported address type (protocol/socks5.go:191-193) cannot be reached, because `parseAddress` has already rejected that type. The model keeps it as an error case.
- A handshake that returns a nil connection with no error (a socks5 or ss session whose deployment is neither local nor server) makes the Go relay dereference nil. The model returns the `NilRemote` session instead of relaying.
- The `Encryptor` type's own source is not part of this model. Its naive transforms are the fixed-key transform and its relay transforms use the session key, as described above.
