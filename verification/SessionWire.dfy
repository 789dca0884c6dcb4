/**
 The `GLYH` key-exchange messages, the payloads that are signed, and the transcript that is hashed.
 Texts are their UTF-8 bytes; whether bytes are UTF-8 is a parameter.
 */
module SessionWire {
  import opened Bytes
  import opened Wrappers

  type Bytes16 = s: seq<byte> | |s| == 16 witness seq(16, _ => 0)
  type Bytes32 = s: seq<byte> | |s| == 32 witness seq(32, _ => 0)

  const MAGIC: seq<byte> := [71, 76, 89, 72] // "GLYH"
  const VERSION: u16 := 1
  const SERVER_EXCHANGE: u8 := 1
  const CLIENT_CONFIRM: u8 := 2
  const HEADER_LEN: nat := 8
  const MAX_FIELD_LEN: nat := 4096

  // "GlyphRay server key exchange v1", "GlyphRay client key confirm v1" and
  // "GlyphRay trusted device challenge v1"
  const SERVER_DOMAIN: seq<byte> := [71, 108, 121, 112, 104, 82, 97, 121, 32, 115, 101, 114, 118, 101, 114, 32, 107, 101, 121, 32, 101, 120, 99, 104, 97, 110, 103, 101, 32, 118, 49]
  const CLIENT_DOMAIN: seq<byte> := [71, 108, 121, 112, 104, 82, 97, 121, 32, 99, 108, 105, 101, 110, 116, 32, 107, 101, 121, 32, 99, 111, 110, 102, 105, 114, 109, 32, 118, 49]
  const TRUSTED_DOMAIN: seq<byte> := [71, 108, 121, 112, 104, 82, 97, 121, 32, 116, 114, 117, 115, 116, 101, 100, 32, 100, 101, 118, 105, 99, 101, 32, 99, 104, 97, 108, 108, 101, 110, 103, 101, 32, 118, 49]

  datatype SessionWireError =
    | ShortPacket | InvalidMagic | UnsupportedVersion | UnexpectedType | FieldTooLarge | InvalidLength | InvalidText

  datatype ServerKeyExchange = ServerKeyExchange(
    sessionId: Bytes16,
    expiresAtUnixMs: u64,
    salt: Bytes32,
    ephemeralPublicKeyDer: seq<byte>,
    hostIdentityPublicKeyDer: seq<byte>,
    signature: seq<byte>)

  datatype ClientKeyConfirm = ClientKeyConfirm(
    sessionId: Bytes16,
    deviceId: seq<byte>,
    ephemeralPublicKeyDer: seq<byte>,
    signature: seq<byte>)

  // ---------------------------------------------------------------------------------------------
  // Layouts
  // ---------------------------------------------------------------------------------------------

  /** A length-prefixed field; the cast keeps the length modulo 2^16. */
  function Field(value: seq<byte>): (r: seq<byte>)
    ensures |r| == 2 + |value|
  {
    LittleEndian(|value|, 2) + value
  }

  function Header(messageType: u8, reserved: byte): (r: seq<byte>)
    ensures |r| == HEADER_LEN
  {
    MAGIC + LittleEndian(VERSION, 2) + [messageType, reserved]
  }

  /** The message with a given reserved header byte, which encoders set to zero and decoders skip. */
  function ServerBytes(e: ServerKeyExchange, reserved: byte): seq<byte> {
    Header(SERVER_EXCHANGE, reserved) + (e.sessionId + (LittleEndian(e.expiresAtUnixMs, 8) + (e.salt
    + (Field(e.ephemeralPublicKeyDer) + (Field(e.hostIdentityPublicKeyDer) + Field(e.signature))))))
  }

  function ClientBytes(c: ClientKeyConfirm, reserved: byte): seq<byte> {
    Header(CLIENT_CONFIRM, reserved) + (c.sessionId + (Field(c.deviceId)
    + (Field(c.ephemeralPublicKeyDer) + Field(c.signature))))
  }

  function ServerSigningPayload(e: ServerKeyExchange): seq<byte> {
    SERVER_DOMAIN + (e.sessionId + (LittleEndian(e.expiresAtUnixMs, 8) + (e.salt + Field(e.ephemeralPublicKeyDer))))
  }

  function ClientSigningPayload(serverHash: Bytes32, c: ClientKeyConfirm): seq<byte> {
    CLIENT_DOMAIN + (serverHash + (c.sessionId + (Field(c.deviceId) + Field(c.ephemeralPublicKeyDer))))
  }

  function TrustedChallengePayload(deviceId: seq<byte>, challengeId: u64, nonce: Bytes32): seq<byte> {
    TRUSTED_DOMAIN + (LittleEndian(challengeId, 8) + (nonce + (LittleEndian(|deviceId|, 8) + deviceId)))
  }

  /** What the session transcript hashes. */
  function Transcript(e: ServerKeyExchange, serverHash: Bytes32, c: ClientKeyConfirm): seq<byte> {
    ServerSigningPayload(e) + ClientSigningPayload(serverHash, c)
  }

  predicate ServerFits(e: ServerKeyExchange) {
    && |e.ephemeralPublicKeyDer| <= MAX_FIELD_LEN
    && |e.hostIdentityPublicKeyDer| <= MAX_FIELD_LEN
    && |e.signature| <= MAX_FIELD_LEN
  }

  predicate ClientFits(c: ClientKeyConfirm) {
    && |c.deviceId| <= MAX_FIELD_LEN
    && |c.ephemeralPublicKeyDer| <= MAX_FIELD_LEN
    && |c.signature| <= MAX_FIELD_LEN
  }

  // ---------------------------------------------------------------------------------------------
  // Fields can be read back
  // ---------------------------------------------------------------------------------------------

  lemma FieldPeels(a: seq<byte>, x: seq<byte>, b: seq<byte>, y: seq<byte>)
    requires Field(a) + x == Field(b) + y
    requires |a| <= U16_MAX && |b| <= U16_MAX
    ensures a == b && x == y
  {
    Append(LittleEndian(|a|, 2), a, x);
    Append(LittleEndian(|b|, 2), b, y);
    Peel(LittleEndian(|a|, 2), a + x, LittleEndian(|b|, 2), b + y);
    FixedWidthRoundTrip(|a|, 2);
    FixedWidthRoundTrip(|b|, 2);
    Peel(a, x, b, y);
  }

  /** A field that ends a string needs no bound: the string's length gives its own. */
  lemma LastFieldPeels(a: seq<byte>, b: seq<byte>)
    requires Field(a) == Field(b)
    ensures a == b
  {
    Peel(LittleEndian(|a|, 2), a, LittleEndian(|b|, 2), b);
  }

  lemma NumberPeels(a: u64, x: seq<byte>, b: u64, y: seq<byte>)
    requires LittleEndian(a, 8) + x == LittleEndian(b, 8) + y
    ensures a == b && x == y
  {
    Peel(LittleEndian(a, 8), x, LittleEndian(b, 8), y);
    FixedWidthRoundTrip(a, 8);
    FixedWidthRoundTrip(b, 8);
  }

  /** Two exchanges with the same bytes are the same, and so are their reserved bytes. */
  lemma ServerBytesInjective(e: ServerKeyExchange, r: byte, e': ServerKeyExchange, r': byte)
    requires ServerFits(e) && ServerFits(e') && ServerBytes(e, r) == ServerBytes(e', r')
    ensures e == e' && r == r'
  {
    ghost var keys, keys' := Field(e.hostIdentityPublicKeyDer) + Field(e.signature), Field(e'.hostIdentityPublicKeyDer) + Field(e'.signature);
    ghost var fields, fields' := Field(e.ephemeralPublicKeyDer) + keys, Field(e'.ephemeralPublicKeyDer) + keys';
    ghost var timed, timed' := LittleEndian(e.expiresAtUnixMs, 8) + (e.salt + fields), LittleEndian(e'.expiresAtUnixMs, 8) + (e'.salt + fields');
    Peel(Header(SERVER_EXCHANGE, r), e.sessionId + timed, Header(SERVER_EXCHANGE, r'), e'.sessionId + timed');
    assert r == Header(SERVER_EXCHANGE, r)[7] == Header(SERVER_EXCHANGE, r')[7] == r';
    Peel(e.sessionId, timed, e'.sessionId, timed');
    NumberPeels(e.expiresAtUnixMs, e.salt + fields, e'.expiresAtUnixMs, e'.salt + fields');
    Peel(e.salt, fields, e'.salt, fields');
    FieldPeels(e.ephemeralPublicKeyDer, keys, e'.ephemeralPublicKeyDer, keys');
    FieldPeels(e.hostIdentityPublicKeyDer, Field(e.signature), e'.hostIdentityPublicKeyDer, Field(e'.signature));
    LastFieldPeels(e.signature, e'.signature);
  }

  lemma ClientBytesInjective(c: ClientKeyConfirm, r: byte, c': ClientKeyConfirm, r': byte)
    requires ClientFits(c) && ClientFits(c') && ClientBytes(c, r) == ClientBytes(c', r')
    ensures c == c' && r == r'
  {
    ghost var keys, keys' := Field(c.ephemeralPublicKeyDer) + Field(c.signature), Field(c'.ephemeralPublicKeyDer) + Field(c'.signature);
    ghost var fields, fields' := Field(c.deviceId) + keys, Field(c'.deviceId) + keys';
    Peel(Header(CLIENT_CONFIRM, r), c.sessionId + fields, Header(CLIENT_CONFIRM, r'), c'.sessionId + fields');
    assert r == Header(CLIENT_CONFIRM, r)[7] == Header(CLIENT_CONFIRM, r')[7] == r';
    Peel(c.sessionId, fields, c'.sessionId, fields');
    FieldPeels(c.deviceId, keys, c'.deviceId, keys');
    FieldPeels(c.ephemeralPublicKeyDer, Field(c.signature), c'.ephemeralPublicKeyDer, Field(c'.signature));
    LastFieldPeels(c.signature, c'.signature);
  }

  // ---------------------------------------------------------------------------------------------
  // Signed payloads are unambiguous
  // ---------------------------------------------------------------------------------------------

  ghost predicate SameSignedServer(e: ServerKeyExchange, e': ServerKeyExchange) {
    && e.sessionId == e'.sessionId && e.expiresAtUnixMs == e'.expiresAtUnixMs && e.salt == e'.salt
    && e.ephemeralPublicKeyDer == e'.ephemeralPublicKeyDer
  }

  ghost predicate SameSignedClient(c: ClientKeyConfirm, c': ClientKeyConfirm) {
    && c.sessionId == c'.sessionId && c.deviceId == c'.deviceId
    && c.ephemeralPublicKeyDer == c'.ephemeralPublicKeyDer
  }

  /** The server payload determines every field it covers, whatever the key length. */
  lemma ServerPayloadInjective(e: ServerKeyExchange, e': ServerKeyExchange)
    ensures ServerSigningPayload(e) == ServerSigningPayload(e') <==> SameSignedServer(e, e')
  {
    if ServerSigningPayload(e) == ServerSigningPayload(e') {
      assert ServerSigningPayload(e) + [] == ServerSigningPayload(e') + [];
      PeelServer(e, [], e', []);
      assert Field(e.ephemeralPublicKeyDer) + [] == Field(e.ephemeralPublicKeyDer);
      assert Field(e'.ephemeralPublicKeyDer) + [] == Field(e'.ephemeralPublicKeyDer);
      LastFieldPeels(e.ephemeralPublicKeyDer, e'.ephemeralPublicKeyDer);
    }
  }

  lemma PeelServer(e: ServerKeyExchange, x: seq<byte>, e': ServerKeyExchange, x': seq<byte>)
    requires ServerSigningPayload(e) + x == ServerSigningPayload(e') + x'
    ensures e.sessionId == e'.sessionId && e.expiresAtUnixMs == e'.expiresAtUnixMs && e.salt == e'.salt
    ensures Field(e.ephemeralPublicKeyDer) + x == Field(e'.ephemeralPublicKeyDer) + x'
  {
    ServerPayloadThen(e, x);
    ServerPayloadThen(e', x');
    var key, key' := Field(e.ephemeralPublicKeyDer) + x, Field(e'.ephemeralPublicKeyDer) + x';
    var timed, timed' := LittleEndian(e.expiresAtUnixMs, 8) + (e.salt + key), LittleEndian(e'.expiresAtUnixMs, 8) + (e'.salt + key');
    Peel(SERVER_DOMAIN, e.sessionId + timed, SERVER_DOMAIN, e'.sessionId + timed');
    Peel(e.sessionId, timed, e'.sessionId, timed');
    NumberPeels(e.expiresAtUnixMs, e.salt + key, e'.expiresAtUnixMs, e'.salt + key');
    Peel(e.salt, key, e'.salt, key');
  }

  lemma ServerPayloadThen(e: ServerKeyExchange, x: seq<byte>)
    ensures ServerSigningPayload(e) + x ==
            SERVER_DOMAIN + (e.sessionId + (LittleEndian(e.expiresAtUnixMs, 8) + (e.salt + (Field(e.ephemeralPublicKeyDer) + x))))
  {
    var key := Field(e.ephemeralPublicKeyDer);
    var salted := e.salt + key;
    var timed := LittleEndian(e.expiresAtUnixMs, 8) + salted;
    Append(SERVER_DOMAIN, e.sessionId + timed, x);
    Append(e.sessionId, timed, x);
    Append(LittleEndian(e.expiresAtUnixMs, 8), salted, x);
    Append(e.salt, key, x);
  }

  /** The client payload determines every field it covers as long as device ids fit their prefix. */
  lemma ClientPayloadInjective(h: Bytes32, c: ClientKeyConfirm, h': Bytes32, c': ClientKeyConfirm)
    requires |c.deviceId| <= U16_MAX && |c'.deviceId| <= U16_MAX
    ensures ClientSigningPayload(h, c) == ClientSigningPayload(h', c') <==> h == h' && SameSignedClient(c, c')
  {
    if ClientSigningPayload(h, c) == ClientSigningPayload(h', c') {
      var fields, fields' := Field(c.deviceId) + Field(c.ephemeralPublicKeyDer), Field(c'.deviceId) + Field(c'.ephemeralPublicKeyDer);
      Peel(CLIENT_DOMAIN, h + (c.sessionId + fields), CLIENT_DOMAIN, h' + (c'.sessionId + fields'));
      Peel(h, c.sessionId + fields, h', c'.sessionId + fields');
      Peel(c.sessionId, fields, c'.sessionId, fields');
      FieldPeels(c.deviceId, Field(c.ephemeralPublicKeyDer), c'.deviceId, Field(c'.ephemeralPublicKeyDer));
      LastFieldPeels(c.ephemeralPublicKeyDer, c'.ephemeralPublicKeyDer);
    }
  }

  /** Two different confirmations, with device ids of at most `bound` bytes, that sign alike. */
  ghost predicate Ambiguous(bound: nat, h: Bytes32, c: ClientKeyConfirm, h': Bytes32, c': ClientKeyConfirm) {
    && |c.deviceId| <= bound && |c'.deviceId| <= bound
    && ClientSigningPayload(h, c) == ClientSigningPayload(h', c')
    && !(h == h' && SameSignedClient(c, c'))
  }

  /** The payload builder itself does not check lengths: allowing device ids of up to `bound` bytes
      keeps the client payload unambiguous exactly when `bound` fits the 16-bit prefix. The decoder stops
      at 4,096 bytes, so no confirmation that arrives reaches the ambiguous case. */
  lemma ClientPayloadBound(bound: nat)
    ensures (forall h: Bytes32, c: ClientKeyConfirm, h': Bytes32, c': ClientKeyConfirm :: !Ambiguous(bound, h, c, h', c'))
            <==> bound <= U16_MAX
  {
    if bound <= U16_MAX {
      forall h: Bytes32, c: ClientKeyConfirm, h': Bytes32, c': ClientKeyConfirm
        ensures !Ambiguous(bound, h, c, h', c')
      {
        if |c.deviceId| <= bound && |c'.deviceId| <= bound {
          ClientPayloadInjective(h, c, h', c');
        }
      }
    } else {
      var zeros: seq<byte> := seq(0x1_0000, _ => 0);
      var h: Bytes32, id: Bytes16 := seq(32, _ => 0), seq(16, _ => 0);
      var c, c' := ClientKeyConfirm(id, zeros, [], []), ClientKeyConfirm(id, [], zeros, []);
      WrappedPrefix();
      assert Field(zeros) + Field([]) == Field([]) + Field(zeros) by {
        assert Field(zeros) == seq(0x1_0002, _ => 0);
        assert Field([]) == [0, 0];
      }
      assert ClientSigningPayload(h, c) == ClientSigningPayload(h, c');
      assert Ambiguous(bound, h, c, h, c');
    }
  }

  lemma WrappedPrefix()
    ensures LittleEndian(0x1_0000, 2) == [0, 0] && LittleEndian(0, 2) == [0, 0]
  {
    assert LittleEndian(0x100, 1) == [0] + LittleEndian(1, 0);
    assert LittleEndian(0, 1) == [0] + LittleEndian(0, 0);
  }

  lemma TrustedPayloadInjective(d: seq<byte>, id: u64, nonce: Bytes32, d': seq<byte>, id': u64, nonce': Bytes32)
    ensures TrustedChallengePayload(d, id, nonce) == TrustedChallengePayload(d', id', nonce')
            <==> d == d' && id == id' && nonce == nonce'
  {
    if TrustedChallengePayload(d, id, nonce) == TrustedChallengePayload(d', id', nonce') {
      var device, device' := LittleEndian(|d|, 8) + d, LittleEndian(|d'|, 8) + d';
      Peel(TRUSTED_DOMAIN, LittleEndian(id, 8) + (nonce + device), TRUSTED_DOMAIN, LittleEndian(id', 8) + (nonce' + device'));
      NumberPeels(id, nonce + device, id', nonce' + device');
      Peel(nonce, device, nonce', device');
      Peel(LittleEndian(|d|, 8), d, LittleEndian(|d'|, 8), d');
    }
  }

  /** No payload of one kind is a payload of another: the domains differ at their tenth byte. */
  lemma DomainsSeparate(e: ServerKeyExchange, h: Bytes32, c: ClientKeyConfirm, d: seq<byte>, id: u64, nonce: Bytes32)
    ensures ServerSigningPayload(e) != ClientSigningPayload(h, c)
    ensures ServerSigningPayload(e) != TrustedChallengePayload(d, id, nonce)
    ensures ClientSigningPayload(h, c) != TrustedChallengePayload(d, id, nonce)
  {
    assert ServerSigningPayload(e)[9] == 115;
    assert ClientSigningPayload(h, c)[9] == 99;
    assert TrustedChallengePayload(d, id, nonce)[9] == 116;
  }

  /** The hashed transcript determines every field either payload covers. */
  lemma TranscriptDetermines(e: ServerKeyExchange, h: Bytes32, c: ClientKeyConfirm, e': ServerKeyExchange, h': Bytes32, c': ClientKeyConfirm)
    requires |e.ephemeralPublicKeyDer| <= U16_MAX && |e'.ephemeralPublicKeyDer| <= U16_MAX
    requires |c.deviceId| <= U16_MAX && |c'.deviceId| <= U16_MAX
    ensures Transcript(e, h, c) == Transcript(e', h', c')
            <==> SameSignedServer(e, e') && h == h' && SameSignedClient(c, c')
  {
    if Transcript(e, h, c) == Transcript(e', h', c') {
      PeelServer(e, ClientSigningPayload(h, c), e', ClientSigningPayload(h', c'));
      FieldPeels(e.ephemeralPublicKeyDer, ClientSigningPayload(h, c), e'.ephemeralPublicKeyDer, ClientSigningPayload(h', c'));
    }
    ClientPayloadInjective(h, c, h', c');
    ServerPayloadInjective(e, e');
  }

  // ---------------------------------------------------------------------------------------------
  // Encoders and payload builders
  // ---------------------------------------------------------------------------------------------

  method EncodeHeader(messageType: u8) returns (out: seq<byte>)
    ensures out == Header(messageType, 0)
  {
    out := MAGIC;
    out := out + LittleEndian(VERSION, 2);
    out := out + [messageType];
    out := out + [0];
  }

  method PutBytes(out: seq<byte>, value: seq<byte>) returns (out': seq<byte>)
    ensures out' == out + Field(value)
  {
    out' := out + LittleEndian(|value|, 2);
    out' := out' + value;
    Append(out, LittleEndian(|value|, 2), value);
  }

  method EncodeServerKeyExchange(e: ServerKeyExchange) returns (r: Result<seq<byte>, SessionWireError>)
    ensures r == if ServerFits(e) then Ok(ServerBytes(e, 0)) else Err(FieldTooLarge)
  {
    if !ServerFits(e) {
      return Err(FieldTooLarge);
    }
    ghost var keys := Field(e.hostIdentityPublicKeyDer) + Field(e.signature);
    ghost var fields := Field(e.ephemeralPublicKeyDer) + keys;
    ghost var salted := e.salt + fields;
    var out := EncodeHeader(SERVER_EXCHANGE);
    Append(out, e.sessionId, LittleEndian(e.expiresAtUnixMs, 8) + salted);
    out := out + e.sessionId;
    Append(out, LittleEndian(e.expiresAtUnixMs, 8), salted);
    out := out + LittleEndian(e.expiresAtUnixMs, 8);
    Append(out, e.salt, fields);
    out := out + e.salt;
    Append(out, Field(e.ephemeralPublicKeyDer), keys);
    out := PutBytes(out, e.ephemeralPublicKeyDer);
    Append(out, Field(e.hostIdentityPublicKeyDer), Field(e.signature));
    out := PutBytes(out, e.hostIdentityPublicKeyDer);
    out := PutBytes(out, e.signature);
    return Ok(out);
  }

  method EncodeClientKeyConfirm(c: ClientKeyConfirm) returns (r: Result<seq<byte>, SessionWireError>)
    ensures r == if ClientFits(c) then Ok(ClientBytes(c, 0)) else Err(FieldTooLarge)
  {
    if !ClientFits(c) {
      return Err(FieldTooLarge);
    }
    ghost var keys := Field(c.ephemeralPublicKeyDer) + Field(c.signature);
    var out := EncodeHeader(CLIENT_CONFIRM);
    Append(out, c.sessionId, Field(c.deviceId) + keys);
    out := out + c.sessionId;
    Append(out, Field(c.deviceId), keys);
    out := PutBytes(out, c.deviceId);
    Append(out, Field(c.ephemeralPublicKeyDer), Field(c.signature));
    out := PutBytes(out, c.ephemeralPublicKeyDer);
    out := PutBytes(out, c.signature);
    return Ok(out);
  }

  method BuildServerSigningPayload(e: ServerKeyExchange) returns (out: seq<byte>)
    ensures out == ServerSigningPayload(e)
  {
    ghost var salted := e.salt + Field(e.ephemeralPublicKeyDer);
    out := SERVER_DOMAIN;
    Append(out, e.sessionId, LittleEndian(e.expiresAtUnixMs, 8) + salted);
    out := out + e.sessionId;
    Append(out, LittleEndian(e.expiresAtUnixMs, 8), salted);
    out := out + LittleEndian(e.expiresAtUnixMs, 8);
    Append(out, e.salt, Field(e.ephemeralPublicKeyDer));
    out := out + e.salt;
    out := PutBytes(out, e.ephemeralPublicKeyDer);
  }

  method BuildClientSigningPayload(serverHash: Bytes32, c: ClientKeyConfirm) returns (out: seq<byte>)
    ensures out == ClientSigningPayload(serverHash, c)
  {
    ghost var fields := Field(c.deviceId) + Field(c.ephemeralPublicKeyDer);
    out := CLIENT_DOMAIN;
    Append(out, serverHash, c.sessionId + fields);
    out := out + serverHash;
    Append(out, c.sessionId, fields);
    out := out + c.sessionId;
    Append(out, Field(c.deviceId), Field(c.ephemeralPublicKeyDer));
    out := PutBytes(out, c.deviceId);
    out := PutBytes(out, c.ephemeralPublicKeyDer);
  }

  method BuildTrustedChallengePayload(deviceId: seq<byte>, challengeId: u64, nonce: Bytes32) returns (payload: seq<byte>)
    ensures payload == TrustedChallengePayload(deviceId, challengeId, nonce)
  {
    ghost var device := LittleEndian(|deviceId|, 8) + deviceId;
    payload := TRUSTED_DOMAIN;
    Append(payload, LittleEndian(challengeId, 8), nonce + device);
    payload := payload + LittleEndian(challengeId, 8);
    Append(payload, nonce, device);
    payload := payload + nonce;
    Append(payload, LittleEndian(|deviceId|, 8), deviceId);
    payload := payload + LittleEndian(|deviceId|, 8);
    payload := payload + deviceId;
  }

  // ---------------------------------------------------------------------------------------------
  // Decoders: a cursor moves over the bytes
  // ---------------------------------------------------------------------------------------------

  /** The header check, in the order the decoders make it. */
  function HeaderError(bytes: seq<byte>, expectedType: u8): Option<SessionWireError> {
    if |bytes| < HEADER_LEN then Some(ShortPacket)
    else if bytes[0..4] != MAGIC then Some(InvalidMagic)
    else if FromLittleEndian(bytes[4..6]) != VERSION then Some(UnsupportedVersion)
    else if bytes[6] != expectedType then Some(UnexpectedType)
    else None
  }

  lemma HeaderReadable(bytes: seq<byte>, messageType: u8)
    ensures HeaderError(bytes, messageType).None? <==> |bytes| >= HEADER_LEN && bytes[..HEADER_LEN] == Header(messageType, bytes[7])
  {
    FixedWidthRoundTrip(VERSION, 2);
    if |bytes| >= HEADER_LEN {
      FixedWidthParse(bytes[4..6]);
      var header := Header(messageType, bytes[7]);
      assert header[0..4] == MAGIC && header[4..6] == LittleEndian(VERSION, 2);
      assert bytes[..HEADER_LEN][0..4] == bytes[0..4] && bytes[..HEADER_LEN][4..6] == bytes[4..6];
      assert bytes[..HEADER_LEN] == bytes[0..4] + bytes[4..6] + [bytes[6], bytes[7]];
    }
  }

  method TakeArray(bytes: seq<byte>, cursor: nat, n: nat) returns (r: Option<seq<byte>>, cursor': nat)
    requires cursor <= |bytes|
    ensures r.Some? <==> |bytes| - cursor >= n
    ensures r.Some? ==> |r.value| == n && cursor' == cursor + n <= |bytes| && bytes[cursor..] == r.value + bytes[cursor'..]
    ensures r.None? ==> cursor' == cursor
  {
    if |bytes| - cursor < n {
      return None, cursor;
    }
    return Some(bytes[cursor..cursor + n]), cursor + n;
  }

  method TakeBytes(bytes: seq<byte>, cursor: nat) returns (r: Option<seq<byte>>, cursor': nat)
    requires cursor <= |bytes|
    ensures r.Some? ==> |r.value| <= MAX_FIELD_LEN && cursor <= cursor' <= |bytes| && bytes[cursor..] == Field(r.value) + bytes[cursor'..]
    ensures r.None? ==> forall value, x :: |value| <= MAX_FIELD_LEN ==> bytes[cursor..] != Field(value) + x
  {
    var prefix, afterPrefix := TakeArray(bytes, cursor, 2);
    if prefix.None? {
      return None, cursor;
    }
    var length := FromLittleEndian(prefix.value);
    FixedWidthParse(prefix.value);
    if length > MAX_FIELD_LEN || |bytes| - afterPrefix < length {
      forall value, x | |value| <= MAX_FIELD_LEN
        ensures bytes[cursor..] != Field(value) + x
      {
        if bytes[cursor..] == Field(value) + x {
          Append(LittleEndian(|value|, 2), value, x);
          Peel(prefix.value, bytes[afterPrefix..], LittleEndian(|value|, 2), value + x);
          FixedWidthRoundTrip(|value|, 2);
        }
      }
      return None, afterPrefix;
    }
    var value := bytes[afterPrefix..afterPrefix + length];
    Append(prefix.value, value, bytes[afterPrefix + length..]);
    assert bytes[afterPrefix..] == value + bytes[afterPrefix + length..];
    return Some(value), afterPrefix + length;
  }

  /** The last two fields of a message, and the check that nothing follows them. */
  method TakeLastTwo(bytes: seq<byte>, cursor: nat) returns (r: Option<(seq<byte>, seq<byte>)>)
    requires cursor <= |bytes|
    ensures r.Some? ==> |r.value.0| <= MAX_FIELD_LEN && |r.value.1| <= MAX_FIELD_LEN
                        && bytes[cursor..] == Field(r.value.0) + Field(r.value.1)
    ensures r.None? ==> forall a, b :: |a| <= MAX_FIELD_LEN && |b| <= MAX_FIELD_LEN ==> bytes[cursor..] != Field(a) + Field(b)
  {
    var first, afterFirst := TakeBytes(bytes, cursor);
    if first.None? {
      return None;
    }
    var second, end := TakeBytes(bytes, afterFirst);
    if second.None? || end != |bytes| {
      forall a, b | |a| <= MAX_FIELD_LEN && |b| <= MAX_FIELD_LEN
        ensures bytes[cursor..] != Field(a) + Field(b)
      {
        if bytes[cursor..] == Field(a) + Field(b) {
          FieldPeels(first.value, bytes[afterFirst..], a, Field(b));
          assert Field(b) == Field(b) + [];
          if second.Some? {
            FieldPeels(second.value, bytes[end..], b, []);
          }
        }
      }
      return None;
    }
    assert bytes[end..] == [];
    return Some((first.value, second.value));
  }

  /** Accepts exactly the encoder's images, whatever the reserved byte, and inverts them. */
  method DecodeServerKeyExchange(bytes: seq<byte>) returns (r: Result<ServerKeyExchange, SessionWireError>)
    ensures r.Ok? ==> ServerFits(r.value) && |bytes| >= HEADER_LEN && bytes == ServerBytes(r.value, bytes[7])
    ensures forall e, reserved :: ServerFits(e) && bytes == ServerBytes(e, reserved) ==> r == Ok(e)
    ensures r.Err? ==> r.error == if HeaderError(bytes, SERVER_EXCHANGE).Some? then HeaderError(bytes, SERVER_EXCHANGE).value else InvalidLength
  {
    HeaderReadable(bytes, SERVER_EXCHANGE);
    forall e, reserved | ServerFits(e) && bytes == ServerBytes(e, reserved)
      ensures HeaderError(bytes, SERVER_EXCHANGE).None?
      ensures |bytes| >= 64 && bytes[64..] == Field(e.ephemeralPublicKeyDer) + (Field(e.hostIdentityPublicKeyDer) + Field(e.signature))
    {
      ServerTail(e, reserved);
    }
    var headerError := HeaderError(bytes, SERVER_EXCHANGE);
    if headerError.Some? {
      return Err(headerError.value);
    }
    var sessionId, afterId := TakeArray(bytes, HEADER_LEN, 16);
    if sessionId.None? {
      return Err(InvalidLength);
    }
    var expires, afterExpires := TakeArray(bytes, afterId, 8);
    if expires.None? {
      return Err(InvalidLength);
    }
    var salt, afterSalt := TakeArray(bytes, afterExpires, 32);
    if salt.None? {
      return Err(InvalidLength);
    }
    var ephemeral, afterEphemeral := TakeBytes(bytes, afterSalt);
    if ephemeral.None? {
      return Err(InvalidLength);
    }
    var keys := TakeLastTwo(bytes, afterEphemeral);
    if keys.None? {
      forall e, reserved | ServerFits(e) && bytes == ServerBytes(e, reserved)
        ensures false
      {
        FieldPeels(ephemeral.value, bytes[afterEphemeral..], e.ephemeralPublicKeyDer, Field(e.hostIdentityPublicKeyDer) + Field(e.signature));
      }
      return Err(InvalidLength);
    }
    FixedWidthParse(expires.value);
    var e := ServerKeyExchange(sessionId.value, FromLittleEndian(expires.value), salt.value, ephemeral.value, keys.value.0, keys.value.1);
    AssembleServer(bytes, e);
    return Ok(e);
  }

  lemma AssembleServer(bytes: seq<byte>, e: ServerKeyExchange)
    requires |bytes| >= 64 && HeaderError(bytes, SERVER_EXCHANGE).None?
    requires bytes[8..] == e.sessionId + bytes[24..]
    requires bytes[24..] == LittleEndian(e.expiresAtUnixMs, 8) + bytes[32..]
    requires bytes[32..] == e.salt + bytes[64..]
    requires bytes[64..] == Field(e.ephemeralPublicKeyDer) + (Field(e.hostIdentityPublicKeyDer) + Field(e.signature))
    ensures bytes == ServerBytes(e, bytes[7])
    ensures ServerFits(e) ==> forall e', reserved :: ServerFits(e') && bytes == ServerBytes(e', reserved) ==> e' == e
  {
    HeaderReadable(bytes, SERVER_EXCHANGE);
    assert bytes == bytes[..HEADER_LEN] + bytes[HEADER_LEN..];
    forall e', reserved | ServerFits(e) && ServerFits(e') && bytes == ServerBytes(e', reserved)
      ensures e' == e
    {
      ServerBytesInjective(e, bytes[7], e', reserved);
    }
  }

  lemma ServerTail(e: ServerKeyExchange, reserved: byte)
    ensures var bytes := ServerBytes(e, reserved);
            && HeaderError(bytes, SERVER_EXCHANGE).None?
            && |bytes| >= 64
            && bytes[64..] == Field(e.ephemeralPublicKeyDer) + (Field(e.hostIdentityPublicKeyDer) + Field(e.signature))
  {
    var bytes := ServerBytes(e, reserved);
    HeaderReadable(bytes, SERVER_EXCHANGE);
    assert bytes[..HEADER_LEN] == Header(SERVER_EXCHANGE, reserved);
    assert reserved == bytes[7];
  }

  /** Accepts exactly the encoder's images of confirmations whose device id is text. */
  method DecodeClientKeyConfirm(bytes: seq<byte>, isUtf8: seq<byte> -> bool) returns (r: Result<ClientKeyConfirm, SessionWireError>)
    ensures r.Ok? ==> ClientFits(r.value) && isUtf8(r.value.deviceId) && |bytes| >= HEADER_LEN && bytes == ClientBytes(r.value, bytes[7])
    ensures forall c, reserved :: ClientFits(c) && bytes == ClientBytes(c, reserved)
              ==> r == if isUtf8(c.deviceId) then Ok(c) else Err(InvalidText)
    ensures r.Err? ==> (if HeaderError(bytes, CLIENT_CONFIRM).Some? then r.error == HeaderError(bytes, CLIENT_CONFIRM).value
                        else r.error in {InvalidLength, InvalidText})
  {
    HeaderReadable(bytes, CLIENT_CONFIRM);
    forall c, reserved | ClientFits(c) && bytes == ClientBytes(c, reserved)
      ensures HeaderError(bytes, CLIENT_CONFIRM).None?
      ensures |bytes| >= 24 && bytes[24..] == Field(c.deviceId) + (Field(c.ephemeralPublicKeyDer) + Field(c.signature))
    {
      ClientTail(c, reserved);
    }
    var headerError := HeaderError(bytes, CLIENT_CONFIRM);
    if headerError.Some? {
      return Err(headerError.value);
    }
    var sessionId, afterId := TakeArray(bytes, HEADER_LEN, 16);
    if sessionId.None? {
      return Err(InvalidLength);
    }
    var device, afterDevice := TakeBytes(bytes, afterId);
    if device.None? {
      return Err(InvalidLength);
    }
    forall c, reserved | ClientFits(c) && bytes == ClientBytes(c, reserved)
      ensures c.deviceId == device.value && bytes[afterDevice..] == Field(c.ephemeralPublicKeyDer) + Field(c.signature)
    {
      FieldPeels(device.value, bytes[afterDevice..], c.deviceId, Field(c.ephemeralPublicKeyDer) + Field(c.signature));
    }
    if !isUtf8(device.value) {
      return Err(InvalidText);
    }
    var keys := TakeLastTwo(bytes, afterDevice);
    if keys.None? {
      return Err(InvalidLength);
    }
    var c := ClientKeyConfirm(sessionId.value, device.value, keys.value.0, keys.value.1);
    assert bytes == bytes[..HEADER_LEN] + bytes[HEADER_LEN..];
    assert bytes == ClientBytes(c, bytes[7]);
    forall c', reserved | ClientFits(c') && bytes == ClientBytes(c', reserved)
      ensures c' == c
    {
      ClientBytesInjective(c, bytes[7], c', reserved);
    }
    return Ok(c);
  }

  lemma ClientTail(c: ClientKeyConfirm, reserved: byte)
    ensures var bytes := ClientBytes(c, reserved);
            && HeaderError(bytes, CLIENT_CONFIRM).None?
            && |bytes| >= 24
            && bytes[24..] == Field(c.deviceId) + (Field(c.ephemeralPublicKeyDer) + Field(c.signature))
  {
    var bytes := ClientBytes(c, reserved);
    HeaderReadable(bytes, CLIENT_CONFIRM);
    assert bytes[..HEADER_LEN] == Header(CLIENT_CONFIRM, reserved);
    assert reserved == bytes[7];
  }
}
