/**
 The host packet router: pairing codes, trusted-device challenges, key exchange, and the routing of
 every packet a session may send. Message bodies are what the decoders return; cryptographic
 primitives are parameters; random values, clock readings and hash order come with each call.
 */
module Router {
  import opened Bytes
  import opened Wrappers
  import opened Transport
  import opened Outbound
  import opened SessionWire
  import opened SecureChannel
  import opened Sessions

  const TRUSTED_AUTH_CHALLENGE_TTL_MS: u64 := 30_000
  const SESSION_KEY_EXCHANGE_TTL_MS: u64 := 30_000
  const PAIRING_CODE_TTL_MS: u64 := 5 * 60_000
  const PAIRING_CHALLENGE_TTL_MS: u64 := 2 * 60_000
  const MAX_PAIRING_CODE_ATTEMPTS: nat := 5
  const PAIRING_ATTEMPT_WINDOW_MS: u64 := 2 * 60_000

  // "GlyphRay secure datagram v1"
  const AAD_DOMAIN: seq<byte> := [71, 108, 121, 112, 104, 82, 97, 121, 32, 115, 101, 99, 117, 114, 101, 32, 100, 97, 116, 97, 103, 114, 97, 109, 32, 118, 49]

  datatype Policy = RequireApproval | DevAutoApprove

  datatype InputKind = Pen | Touch | Keyboard | Mouse | Gamepad

  datatype Body =
    | PairingRequestBody(deviceName: Text, proof: seq<byte>, publicKey: seq<byte>)
    | AuthResponseBody(challengeId: u64, deviceId: Text, signature: seq<byte>)
    | KeyConfirmBody(confirm: ClientKeyConfirm)
    | LatencyPingBody(sequence: u64, clientSendUs: u64)
    | EncoderConfigBody(settings: EncoderSettings)
    | InputBody(kind: InputKind, timestampUs: u64)
    | PairingResultBody(accepted: bool, device: Option<Text>)
    | AuthChallengeBody(challengeId: u64, nonce: Bytes32, issuedAtMs: u64)
    | PairingChallengeBody(salt: Bytes32, expiresAtMs: u64)
    | KeyExchangeBody(exchange: ServerKeyExchange)
    | LatencyPongBody(sequence: u64, clientSendUs: u64, hostUs: u64)
    | DisplayInfoBody(displays: nat)
    | MediaBody(bytes: seq<byte>)
    | Undecodable

  type Packet = TransportPacket<Body>

  datatype Reason =
    | RateLimited | PeerRejected | DeniedByPermissions | LateInput | PlaintextAfterSecure | PlaintextWhileSecuring
    | SecureCheckFailed | AttemptLimit | ChallengeNotRequested | CodeExpired | CodeMismatch
    | NoPendingChallenge | ChallengeIdMismatch | DeviceMismatch | ChallengeExpired | SignatureInvalid

  datatype BackendEvent =
    | SessionDiscovered(peer: Peer)
    | SessionApproved(peer: Peer)
    | SessionRejected(peer: Peer)
    | AuthChallengeQueued(peer: Peer, challengeId: u64)
    | PairingChallengeQueued(peer: Peer, code: nat)
    | SessionKeyExchangeQueued(peer: Peer, sessionId: Bytes16)
    | SessionSecured(peer: Peer, sessionId: Bytes16)
    | PeerAutoApproved(peer: Peer)
    | PairingRequested(peer: Peer, codeVerified: bool)
    | PairingCodeRejected(peer: Peer, attemptsRemaining: nat, reason: Reason)
    | TrustedDeviceAuthenticated(peer: Peer, device: Text)
    | PairingResultQueued(peer: Peer, accepted: bool)
    | DisplayInfoQueued(peer: Peer, displays: nat)
    | EncoderConfigUpdated(peer: Peer)
    | InputDecoded(peer: Peer, kind: InputKind)
    | InputInjected(peer: Peer, kind: InputKind)
    | PermissionRequired(peer: Peer)
    | PacketIgnored(peer: Peer, reason: Reason)
    | PendingRateLimited(peer: Peer)
    | LatencyPongQueued(peer: Peer)
    | OutboundQueued(peer: Peer, packets: nat)
    | OutboundBackpressure(peer: Peer, queued: nat)
    | PacketRouted(peer: Peer)

  datatype RouteError = Protocol | InputFailed

  /** The primitives, and names derived from keys and addresses. */
  datatype Crypto = Crypto(
    sha: seq<byte> -> Bytes32,
    verify: (seq<byte>, seq<byte>, seq<byte>) -> bool,      // key, payload, signature
    agree: (seq<byte>, seq<byte>) -> Option<seq<byte>>,     // own secret, other's public key
    proof: (nat, Bytes32) -> seq<byte>,                     // pairing code, salt
    sign: seq<byte> -> seq<byte>,
    hostKey: seq<byte>,
    trustedDevice: (Option<seq<byte>>, Peer) -> Text,
    devDevice: Peer -> Text)

  datatype Setup = Setup(policy: Policy, bridges: set<InputKind>, crypto: Crypto)

  /** What one call reads from outside: clocks, hash order and random values, and whether a native
      injection succeeds. */
  datatype Env = Env(
    instant: nat,
    ms: u64,
    us: u64,
    order: seq<Peer>,
    code: nat,
    salt: Bytes32,
    challengeId: u64,
    nonce: Bytes32,
    sessionId: Bytes16,
    exchangeSalt: Bytes32,
    ephemeralSecret: seq<byte>,
    ephemeralPublic: seq<byte>,
    injects: bool)

  datatype Host = Host(
    sessions: SessionMap,
    attempts: map<nat, seq<nat>>,
    nextSequence: u64,
    code: nat,
    codeExpiresMs: u64)
  {
    function Put(peer: Peer, s: Session): Host {
      this.(sessions := sessions[peer := s])
    }

    function Ensure(peer: Peer, env: Env): (h: Host)
      ensures peer in h.sessions
      ensures peer in sessions ==> h == this
    {
      this.(sessions := EnsurePending(sessions, peer, env.order, env.instant, env.ms))
    }
  }

  datatype Outcome = Outcome(events: seq<BackendEvent>, outbound: seq<Outgoing<Body>>)

  /** An input event let through, with the session as it was then. */
  datatype AcceptedInput = AcceptedInput(peer: Peer, kind: InputKind, mark: Watermark, session: Session)

  datatype Routed = Routed(host: Host, result: Result<Outcome, RouteError>, input: Option<AcceptedInput>)

  function Later(ms: u64, ttl: u64): u64 {
    if ms + ttl > U64_MAX then U64_MAX else ms + ttl
  }

  function Elapsed(now: u64, since: u64): u64 {
    if now < since then 0 else now - since
  }

  // ---------------------------------------------------------------------------------------------
  // Outbound control packets
  // ---------------------------------------------------------------------------------------------

  function Advanced(h: Host): Host {
    h.(nextSequence := NextCounter(h.nextSequence))
  }

  function ControlPacket(h: Host, kind: MessageKind, body: Body, env: Env): Packet {
    TransportPacket(h.nextSequence, Control, kind, env.us, body)
  }

  function NewExchange(setup: Setup, env: Env): ServerKeyExchange {
    var unsigned := ServerKeyExchange(env.sessionId, Later(env.ms, SESSION_KEY_EXCHANGE_TTL_MS), env.exchangeSalt,
                                      env.ephemeralPublic, setup.crypto.hostKey, []);
    unsigned.(signature := setup.crypto.sign(ServerSigningPayload(unsigned)))
  }

  /** The offer replaces any earlier one of the peer. */
  function ExchangeBegun(h: Host, peer: Peer, setup: Setup, env: Env): Host {
    var h1 := h.Ensure(peer, env);
    Advanced(h1.Put(peer, h1.sessions[peer].(pendingExchange := Some(PendingExchange(NewExchange(setup, env), env.ephemeralSecret)))))
  }

  function ExchangePacket(h: Host, setup: Setup, env: Env): Packet {
    ControlPacket(h, SessionKeyExchange, KeyExchangeBody(NewExchange(setup, env)), env)
  }

  // ---------------------------------------------------------------------------------------------
  // Operator actions
  // ---------------------------------------------------------------------------------------------

  function Approve(h: Host, peer: Peer, device: Text, permissions: Permissions, env: Env): Host {
    var h1 := h.Ensure(peer, env);
    h1.Put(peer, h1.sessions[peer].(permission := Approved, deviceId := Some(device), permissions := permissions))
  }

  function ApproveWithResponse(h: Host, peer: Peer, device: Text, permissions: Permissions, setup: Setup, env: Env): (Host, seq<Packet>) {
    var h1 := Approve(h, peer, device, permissions, env);
    var h2 := Advanced(h1);
    (ExchangeBegun(h2, peer, setup, env),
     [ControlPacket(h1, PairingResult, PairingResultBody(true, Some(device)), env), ExchangePacket(h2, setup, env)])
  }

  function RejectWithResponse(h: Host, peer: Peer, env: Env): (Host, Packet) {
    var h1 := h.Ensure(peer, env);
    var h2 := h1.Put(peer, h1.sessions[peer].(permission := Rejected));
    (Advanced(h2), ControlPacket(h2, PairingResult, PairingResultBody(false, None), env))
  }

  /** Challenges a returning device; the permissions are set even when there is no key to challenge. */
  function ChallengeTrusted(h: Host, peer: Peer, device: Text, permissions: Permissions, env: Env): (Host, Option<Packet>) {
    var h1 := h.Ensure(peer, env);
    var s := h1.sessions[peer].(permissions := permissions);
    if s.deviceKey.None? then (h1.Put(peer, s), None)
    else
      var h2 := h1.Put(peer, s.(pendingAuth := Some(PendingAuth(env.challengeId, env.nonce, env.ms, device, s.deviceKey.value))));
      (Advanced(h2), Some(ControlPacket(h2, AuthChallenge, AuthChallengeBody(env.challengeId, env.nonce, env.ms), env)))
  }

  // ---------------------------------------------------------------------------------------------
  // Pairing codes
  // ---------------------------------------------------------------------------------------------

  function RefreshAttempts(s: Session, ms: u64): Session {
    if Elapsed(ms, s.attemptWindowStartMs) >= PAIRING_ATTEMPT_WINDOW_MS
    then s.(pairingAttempts := 0, attemptWindowStartMs := ms)
    else s
  }

  /** A new code; every outstanding challenge is void. */
  function Rotate(h: Host, env: Env): Host {
    h.(code := env.code,
       codeExpiresMs := Later(env.ms, PAIRING_CODE_TTL_MS),
       sessions := WithoutChallenges(h.sessions))
  }

  function WithoutChallenges(sessions: SessionMap): (r: SessionMap)
    ensures r.Keys == sessions.Keys
  {
    map p | p in sessions :: sessions[p].(pendingPairing := None)
  }

  function Unexpired(h: Host, env: Env): Host {
    if env.ms >= h.codeExpiresMs then Rotate(h, env) else h
  }

  function IssueChallenge(h: Host, peer: Peer, env: Env): (Host, Option<(nat, Packet)>) {
    IssueTo(Unexpired(h, env).Ensure(peer, env), peer, env)
  }

  function IssueTo(h: Host, peer: Peer, env: Env): (Host, Option<(nat, Packet)>)
    requires peer in h.sessions
  {
    var s := RefreshAttempts(h.sessions[peer], env.ms);
    if s.pairingAttempts >= MAX_PAIRING_CODE_ATTEMPTS then (h.Put(peer, s), None)
    else
      var expires := Min(Later(env.ms, PAIRING_CHALLENGE_TTL_MS), h.codeExpiresMs);
      var h1 := h.Put(peer, s.(pendingPairing := Some(PendingPairing(env.salt, expires)), codeVerified := false));
      (h1.(nextSequence := Min(h1.nextSequence + 1, U64_MAX)),
       Some((h1.code, ControlPacket(h1, PairingChallenge, PairingChallengeBody(env.salt, expires), env))))
  }

  /** Checks a proof against the peer's challenge, consuming it; `None` is success. */
  function VerifyProof(h: Host, peer: Peer, proof: seq<byte>, setup: Setup, env: Env): (r: (Host, Option<Reason>))
    ensures peer in r.0.sessions
  {
    var h1 := h.Ensure(peer, env);
    var s := RefreshAttempts(h1.sessions[peer], env.ms);
    if s.pairingAttempts >= MAX_PAIRING_CODE_ATTEMPTS then (h1.Put(peer, s), Some(AttemptLimit))
    else
      var challenge := s.pendingPairing;
      var spent := s.(codeVerified := false, pendingPairing := None);
      var failed := h1.Put(peer, spent.(pairingAttempts := s.pairingAttempts + 1));
      if challenge.None? then (failed, Some(ChallengeNotRequested))
      else if env.ms > challenge.value.expiresAtMs || env.ms > h1.codeExpiresMs then (failed, Some(CodeExpired))
      else if proof != setup.crypto.proof(h1.code, challenge.value.salt) then (failed, Some(CodeMismatch))
      else (Rotate(h1.Put(peer, spent.(pairingAttempts := 0, codeVerified := true)), env), None)
  }

  // ---------------------------------------------------------------------------------------------
  // Routing: pairing and authentication
  // ---------------------------------------------------------------------------------------------

  function RoutePairing(h: Host, peer: Peer, body: Body, events: seq<BackendEvent>, setup: Setup, env: Env): Routed
    requires peer in h.sessions
  {
    if !body.PairingRequestBody? then Routed(h, Err(Protocol), None)
    else
      var key := if body.publicKey == [] then None else Some(body.publicKey);
      var s := h.sessions[peer].(deviceId := Some(body.deviceName), deviceKey := key, pendingAuth := None);
      if setup.policy == DevAutoApprove then
        var device := setup.crypto.trustedDevice(key, peer);
        var h1 := h.Put(peer, s.(permission := Approved, deviceId := Some(device)));
        var h2 := Advanced(h1);
        Routed(ExchangeBegun(h2, peer, setup, env),
               Ok(Outcome(events + [PairingRequested(peer, true), PeerAutoApproved(peer),
                                    SessionKeyExchangeQueued(peer, env.sessionId), PairingResultQueued(peer, true)],
                          [Outgoing(peer, ControlPacket(h1, PairingResult, PairingResultBody(true, Some(device)), env)),
                           Outgoing(peer, ExchangePacket(h2, setup, env))])),
               None)
      else if body.proof == [] then
        Routed(h.Put(peer, s), Ok(Outcome(events + [PairingRequested(peer, false)], [])), None)
      else
        var (h1, reason) := VerifyProof(h.Put(peer, s), peer, body.proof, setup, env);
        match reason
        case None => Routed(h1, Ok(Outcome(events + [PairingRequested(peer, true)], [])), None)
        case Some(why) =>
          var attempts := h1.sessions[peer].pairingAttempts;
          var remaining := if attempts < MAX_PAIRING_CODE_ATTEMPTS then MAX_PAIRING_CODE_ATTEMPTS - attempts else 0;
          Routed(Advanced(h1),
                 Ok(Outcome(events + [PairingCodeRejected(peer, remaining, why), PairingResultQueued(peer, false)],
                            [Outgoing(peer, ControlPacket(h1, PairingResult, PairingResultBody(false, None), env))])),
                 None)
  }

  /** The checks on a challenge response, in order; `None` is success. */
  function AuthFailure(s: Session, body: Body, setup: Setup, env: Env): Option<Reason>
    requires body.AuthResponseBody?
  {
    if s.pendingAuth.None? then Some(NoPendingChallenge)
    else
      var challenge := s.pendingAuth.value;
      if body.challengeId != challenge.challengeId then Some(ChallengeIdMismatch)
      else if body.deviceId != challenge.expectedDevice then Some(DeviceMismatch)
      else if Elapsed(env.ms, challenge.issuedAtMs) > TRUSTED_AUTH_CHALLENGE_TTL_MS then Some(ChallengeExpired)
      else if !setup.crypto.verify(challenge.publicKey,
                                   TrustedChallengePayload(challenge.expectedDevice, challenge.challengeId, challenge.nonce),
                                   body.signature)
      then Some(SignatureInvalid)
      else None
  }

  function RouteAuth(h: Host, peer: Peer, body: Body, events: seq<BackendEvent>, setup: Setup, env: Env): Routed
    requires peer in h.sessions
  {
    if !body.AuthResponseBody? then Routed(h, Err(Protocol), None)
    else
      var s := h.sessions[peer];
      match AuthFailure(s, body, setup, env)
      case Some(why) =>
        var h1 := h.Put(peer, s.(permission := Rejected, pendingAuth := None));
        Routed(Advanced(h1),
               Ok(Outcome(events + [PacketIgnored(peer, why), PairingResultQueued(peer, false)],
                          [Outgoing(peer, ControlPacket(h1, PairingResult, PairingResultBody(false, None), env))])),
               None)
      case None =>
        var device := s.pendingAuth.value.expectedDevice;
        var h1 := h.Put(peer, s.(permission := Approved, deviceId := Some(device), pendingAuth := None));
        var h2 := Advanced(h1);
        Routed(ExchangeBegun(h2, peer, setup, env),
               Ok(Outcome(events + [SessionKeyExchangeQueued(peer, env.sessionId), TrustedDeviceAuthenticated(peer, device),
                                    PairingResultQueued(peer, true)],
                          [Outgoing(peer, ControlPacket(h1, PairingResult, PairingResultBody(true, Some(device)), env)),
                           Outgoing(peer, ExchangePacket(h2, setup, env))])),
               None)
  }

  // ---------------------------------------------------------------------------------------------
  // Routing: key confirmation
  // ---------------------------------------------------------------------------------------------

  function SessionAad(sessionId: Bytes16): seq<byte> {
    AAD_DOMAIN + sessionId
  }

  /** The session a valid confirmation of an exchange establishes. */
  function Established(pending: PendingExchange, confirm: ClientKeyConfirm, secret: seq<byte>, crypto: Crypto): SecureSession {
    var transcript := Transcript(pending.exchange, crypto.sha(ServerSigningPayload(pending.exchange)), confirm);
    SecureSession(pending.exchange.sessionId, ForHost(secret, transcript), NewCodec(SessionAad(pending.exchange.sessionId)))
  }

  /** Does the confirmation answer the session's pending exchange? */
  predicate ConfirmsExchange(s: Session, confirm: ClientKeyConfirm, setup: Setup, env: Env) {
    && s.pendingExchange.Some?
    && var exchange := s.pendingExchange.value.exchange;
    && confirm.sessionId == exchange.sessionId
    && env.ms <= exchange.expiresAtUnixMs
    && s.deviceId == Some(confirm.deviceId)
    && s.deviceKey.Some?
    && setup.crypto.verify(s.deviceKey.value,
                           ClientSigningPayload(setup.crypto.sha(ServerSigningPayload(exchange)), confirm),
                           confirm.signature)
    && setup.crypto.agree(s.pendingExchange.value.ephemeralSecret, confirm.ephemeralPublicKeyDer).Some?
  }

  /** The pending exchange is spent whether or not the confirmation is good. */
  function Confirmed(s: Session, confirm: ClientKeyConfirm, setup: Setup, env: Env): Session {
    var spent := s.(pendingExchange := None);
    if !ConfirmsExchange(s, confirm, setup, env) then spent
    else
      var secret := setup.crypto.agree(s.pendingExchange.value.ephemeralSecret, confirm.ephemeralPublicKeyDer).value;
      spent.(secure := Some(Established(s.pendingExchange.value, confirm, secret, setup.crypto)))
  }

  function RouteConfirm(h: Host, peer: Peer, body: Body, events: seq<BackendEvent>, setup: Setup, env: Env): Routed
    requires peer in h.sessions
  {
    if !body.KeyConfirmBody? then Routed(h, Err(Protocol), None)
    else
      var s := h.sessions[peer];
      Routed(h.Put(peer, Confirmed(s, body.confirm, setup, env)),
             if ConfirmsExchange(s, body.confirm, setup, env)
             then Ok(Outcome(events + [SessionSecured(peer, s.pendingExchange.value.exchange.sessionId)], []))
             else Err(Protocol),
             None)
  }

  // ---------------------------------------------------------------------------------------------
  // Routing: input and the rest
  // ---------------------------------------------------------------------------------------------

  function InputKindOf(kind: MessageKind): Option<InputKind> {
    match kind
    case StylusInputBatch => Some(Pen)
    case TouchInputBatch => Some(Touch)
    case KeyboardInput => Some(Keyboard)
    case MouseInput => Some(Mouse)
    case GamepadInput => Some(Gamepad)
    case _ => None
  }

  /** Pen input is reported once, injected or decoded; other input is reported decoded, then injected. */
  function InputEvents(peer: Peer, kind: InputKind, bridged: bool): seq<BackendEvent> {
    if !bridged then [InputDecoded(peer, kind)]
    else if kind == Pen then [InputInjected(peer, kind)]
    else [InputDecoded(peer, kind), InputInjected(peer, kind)]
  }

  function RouteInput(h: Host, peer: Peer, packet: Packet, kind: InputKind, events: seq<BackendEvent>, setup: Setup, env: Env): Routed
    requires peer in h.sessions
  {
    if !(packet.payload.InputBody? && packet.payload.kind == kind) then Routed(h, Err(Protocol), None)
    else
      var s, mark := h.sessions[peer], Watermark(packet.sequence, packet.payload.timestampUs);
      if !Advances(s, mark.sequence, mark.timestampUs) then
        Routed(h, Ok(Outcome(events + [PacketIgnored(peer, LateInput)], [])), None)
      else
        Routed(h.Put(peer, s.(watermark := Some(mark))),
               if kind in setup.bridges && !env.injects then Err(InputFailed)
               else Ok(Outcome(events + InputEvents(peer, kind, kind in setup.bridges), [])),
               Some(AcceptedInput(peer, kind, mark, s)))
  }

  function RouteApproved(h: Host, peer: Peer, packet: Packet, events: seq<BackendEvent>, setup: Setup, env: Env): Routed
    requires peer in h.sessions
  {
    if packet.messageKind == SessionKeyConfirm then RouteConfirm(h, peer, packet.payload, events, setup, env)
    else if !AllowsInput(h.sessions[peer], packet.messageKind) then
      Routed(h, Ok(Outcome(events + [PacketIgnored(peer, DeniedByPermissions)], [])), None)
    else if InputKindOf(packet.messageKind).Some? then
      RouteInput(h, peer, packet, InputKindOf(packet.messageKind).value, events, setup, env)
    else if packet.messageKind == LatencyPing then
      if !packet.payload.LatencyPingBody? then Routed(h, Err(Protocol), None)
      else
        var pong := LatencyPongBody(packet.payload.sequence, packet.payload.clientSendUs, env.us);
        Routed(Advanced(h), Ok(Outcome(events + [LatencyPongQueued(peer)], [Outgoing(peer, ControlPacket(h, LatencyPong, pong, env))])), None)
    else if packet.messageKind == EncoderConfig then
      if !packet.payload.EncoderConfigBody? then Routed(h, Err(Protocol), None)
      else Routed(h.Put(peer, h.sessions[peer].(encoder := Some(packet.payload.settings))), Ok(Outcome(events + [EncoderConfigUpdated(peer)], [])), None)
    else Routed(h, Ok(Outcome(events + [PacketRouted(peer)], [])), None)
  }

  /** The session is there, was just seen, and is not rejected. */
  function RouteKnown(h: Host, peer: Peer, packet: Packet, events: seq<BackendEvent>, setup: Setup, env: Env): Routed
    requires peer in h.sessions
  {
    var s := h.sessions[peer];
    if packet.messageKind == PairingRequest then RoutePairing(h, peer, packet.payload, events, setup, env)
    else if packet.messageKind == AuthResponse then RouteAuth(h, peer, packet.payload, events, setup, env)
    else if s.permission == Approved then RouteApproved(h, peer, packet, events, setup, env)
    else if setup.policy == DevAutoApprove then
      var device := if s.deviceId.Some? then s.deviceId else Some(setup.crypto.devDevice(peer));
      RouteApproved(h.Put(peer, s.(permission := Approved, deviceId := device)), peer, packet, events + [PeerAutoApproved(peer)], setup, env)
    else Routed(h, Ok(Outcome(events + [PermissionRequired(peer)], [])), None)
  }

  /** An unknown peer must be let in by the rate limit of its address. */
  function Attempted(h: Host, peer: Peer, env: Env): Host {
    if peer in h.sessions then h
    else h.(attempts := h.attempts[peer.ip := AfterAttempt(AttemptsOf(h.attempts, peer.ip), env.instant)])
  }

  predicate LetIn(h: Host, peer: Peer, env: Env) {
    peer in h.sessions || Admits(AttemptsOf(h.attempts, peer.ip), env.instant)
  }

  function Seen(h: Host, peer: Peer, env: Env): (r: Host)
    ensures peer in r.sessions
  {
    var h1 := h.Ensure(peer, env);
    var s := h1.sessions[peer];
    h1.Put(peer, s.(lastSeen := env.instant, packetsReceived := s.packetsReceived + 1))
  }

  function Route(h: Host, peer: Peer, packet: Packet, setup: Setup, env: Env): Routed {
    if !LetIn(h, peer, env) then
      Routed(Attempted(h, peer, env), Ok(Outcome([PendingRateLimited(peer), PacketIgnored(peer, RateLimited)], [])), None)
    else
      var h1 := Seen(Attempted(h, peer, env), peer, env);
      var events := if h1.sessions[peer].packetsReceived == 1 then [SessionDiscovered(peer)] else [];
      if h1.sessions[peer].permission == Rejected then
        Routed(h1, Ok(Outcome(events + [PacketIgnored(peer, PeerRejected)], [])), None)
      else RouteKnown(h1, peer, packet, events, setup, env)
  }

  // ---------------------------------------------------------------------------------------------
  // Sealing and opening for a peer
  // ---------------------------------------------------------------------------------------------

  /** What is sealed: an encoded packet, or bytes that do not decode as one. */
  datatype Plaintext = Encoded(packet: Packet) | Junk

  type Sealed = SealedPacket<Ciphertext<Plaintext>>

  function SecureOf(h: Host, peer: Peer): SecureSession
    requires IsSecure(h.sessions, peer)
  {
    h.sessions[peer].secure.value
  }

  function WithCodec(h: Host, peer: Peer, codec: LiveCodec): Host
    requires IsSecure(h.sessions, peer)
  {
    h.Put(peer, h.sessions[peer].(secure := Some(SecureOf(h, peer).(codec := codec))))
  }

  /** The packet a sealed datagram opens to, if it passes every check. */
  function Opened(h: Host, peer: Peer, sealed: Sealed): Option<Packet> {
    if !IsSecure(h.sessions, peer) then None
    else
      var plaintext := OpenResult<Plaintext>(SecureOf(h, peer).codec, SecureOf(h, peer).ciphers.inbound, sealed);
      if plaintext.Ok? && plaintext.value.Encoded? then Some(plaintext.value.packet) else None
  }

  function AfterOpening(h: Host, peer: Peer, sealed: Sealed): Host {
    if !IsSecure(h.sessions, peer) then h
    else WithCodec(h, peer, AfterOpen(SecureOf(h, peer).codec, SecureOf(h, peer).ciphers.inbound, sealed))
  }

  function SealedFor(h: Host, peer: Peer, packet: Packet): Sealed
    requires IsSecure(h.sessions, peer)
  {
    var secure := SecureOf(h, peer);
    SealPacket(secure.ciphers.outbound, secure.codec.sendCounter, secure.codec.aad, Encoded(packet))
  }

  function AfterSealing(h: Host, peer: Peer): Host
    requires IsSecure(h.sessions, peer)
  {
    WithCodec(h, peer, AfterSeal(SecureOf(h, peer).codec))
  }

  // ---------------------------------------------------------------------------------------------
  // The router
  // ---------------------------------------------------------------------------------------------

  class HostPacketRouter {
    const setup: Setup
    const registry: SessionRegistry
    var nextOutboundSequence: u64
    var pairingCode: nat
    var pairingCodeExpiresMs: u64

    ghost function State(): Host
      reads this, registry
    {
      Host(registry.sessions, registry.pendingAttemptsByIp, nextOutboundSequence, pairingCode, pairingCodeExpiresMs)
    }

    constructor (setup: Setup, env: Env)
      ensures this.setup == setup && fresh(registry)
      ensures State() == Host(map[], map[], 1, env.code, Later(env.ms, PAIRING_CODE_TTL_MS))
    {
      this.setup := setup;
      this.registry := new SessionRegistry();
      this.nextOutboundSequence := 1;
      this.pairingCode := env.code;
      this.pairingCodeExpiresMs := Later(env.ms, PAIRING_CODE_TTL_MS);
    }

    method Ensure(peer: Peer, env: Env)
      modifies registry
      ensures State() == old(State()).Ensure(peer, env)
    {
      registry.EnsurePendingSession(peer, env.order, env.instant, env.ms);
    }

    method Put(peer: Peer, session: Session)
      modifies registry`sessions
      ensures State() == old(State()).Put(peer, session)
    {
      registry.sessions := registry.sessions[peer := session];
    }

    method BuildControl(kind: MessageKind, body: Body, env: Env) returns (packet: Packet)
      modifies this`nextOutboundSequence
      ensures packet == ControlPacket(old(State()), kind, body, env) && State() == Advanced(old(State()))
    {
      packet := TransportPacket(nextOutboundSequence, Control, kind, env.us, body);
      nextOutboundSequence := NextCounter(nextOutboundSequence);
    }

    method BeginSessionKeyExchange(peer: Peer, env: Env) returns (packet: Packet)
      modifies this, registry
      ensures State() == ExchangeBegun(old(State()), peer, setup, env)
      ensures packet == ExchangePacket(old(State()), setup, env)
    {
      var exchange := NewExchange(setup, env);
      Ensure(peer, env);
      Put(peer, registry.sessions[peer].(pendingExchange := Some(PendingExchange(exchange, env.ephemeralSecret))));
      packet := BuildControl(SessionKeyExchange, KeyExchangeBody(exchange), env);
    }

    method ApprovePeer(peer: Peer, device: Text, permissions: Permissions, env: Env)
      modifies registry
      ensures State() == Approve(old(State()), peer, device, permissions, env)
    {
      Ensure(peer, env);
      Put(peer, registry.sessions[peer].(permission := Approved, deviceId := Some(device), permissions := permissions));
    }

    method ApprovePeerWithResponse(peer: Peer, device: Text, permissions: Permissions, env: Env) returns (packets: seq<Packet>)
      modifies this, registry
      ensures (State(), packets) == ApproveWithResponse(old(State()), peer, device, permissions, setup, env)
    {
      ApprovePeer(peer, device, permissions, env);
      var result := BuildControl(PairingResult, PairingResultBody(true, Some(device)), env);
      var exchange := BeginSessionKeyExchange(peer, env);
      packets := [result, exchange];
    }

    method RejectPeerWithResponse(peer: Peer, env: Env) returns (packet: Packet)
      modifies this, registry
      ensures (State(), packet) == RejectWithResponse(old(State()), peer, env)
    {
      Ensure(peer, env);
      Put(peer, registry.sessions[peer].(permission := Rejected));
      packet := BuildControl(PairingResult, PairingResultBody(false, None), env);
    }

    method ChallengePeerWithResponse(peer: Peer, device: Text, permissions: Permissions, env: Env) returns (packet: Option<Packet>)
      modifies this, registry
      ensures (State(), packet) == ChallengeTrusted(old(State()), peer, device, permissions, env)
    {
      Ensure(peer, env);
      Put(peer, registry.sessions[peer].(permissions := permissions));
      var session := registry.sessions[peer];
      if session.deviceKey.None? {
        return None;
      }
      session := session.(pendingAuth := Some(PendingAuth(env.challengeId, env.nonce, env.ms, device, session.deviceKey.value)));
      Put(peer, session);
      var challenge := BuildControl(AuthChallenge, AuthChallengeBody(env.challengeId, env.nonce, env.ms), env);
      assert State() == ChallengeTrusted(old(State()), peer, device, permissions, env).0;
      return Some(challenge);
    }

    method RotatePairingCode(env: Env)
      modifies this, registry
      ensures State() == Rotate(old(State()), env)
    {
      pairingCode := env.code;
      pairingCodeExpiresMs := Later(env.ms, PAIRING_CODE_TTL_MS);
      registry.sessions := WithoutChallenges(registry.sessions);
    }

    method PairingCodeChallengeWithResponse(peer: Peer, env: Env) returns (r: Option<(nat, Packet)>)
      modifies this, registry
      ensures (State(), r) == IssueChallenge(old(State()), peer, env)
    {
      if env.ms >= pairingCodeExpiresMs {
        RotatePairingCode(env);
      }
      Ensure(peer, env);
      var session := RefreshAttempts(registry.sessions[peer], env.ms);
      if session.pairingAttempts >= MAX_PAIRING_CODE_ATTEMPTS {
        Put(peer, session);
        return None;
      }
      var expires := Min(Later(env.ms, PAIRING_CHALLENGE_TTL_MS), pairingCodeExpiresMs);
      Put(peer, session.(pendingPairing := Some(PendingPairing(env.salt, expires)), codeVerified := false));
      var packet := TransportPacket(nextOutboundSequence, Control, PairingChallenge, env.us, PairingChallengeBody(env.salt, expires));
      nextOutboundSequence := Min(nextOutboundSequence + 1, U64_MAX);
      return Some((pairingCode, packet));
    }

    method VerifyPairingCodeForPeer(peer: Peer, proof: seq<byte>, env: Env) returns (failure: Option<Reason>)
      modifies this, registry
      ensures (State(), failure) == VerifyProof(old(State()), peer, proof, setup, env)
    {
      Ensure(peer, env);
      ghost var h1 := State();
      var session := RefreshAttempts(registry.sessions[peer], env.ms);
      if session.pairingAttempts >= MAX_PAIRING_CODE_ATTEMPTS {
        Put(peer, session);
        return Some(AttemptLimit);
      }
      session := session.(codeVerified := false);
      var challenge := session.pendingPairing;
      session := session.(pendingPairing := None);
      if challenge.None? {
        Put(peer, session.(pairingAttempts := session.pairingAttempts + 1));
        return Some(ChallengeNotRequested);
      }
      if env.ms > challenge.value.expiresAtMs || env.ms > pairingCodeExpiresMs {
        Put(peer, session.(pairingAttempts := session.pairingAttempts + 1));
        return Some(CodeExpired);
      }
      if proof != setup.crypto.proof(pairingCode, challenge.value.salt) {
        Put(peer, session.(pairingAttempts := session.pairingAttempts + 1));
        return Some(CodeMismatch);
      }
      Put(peer, session.(pairingAttempts := 0, codeVerified := true));
      RotatePairingCode(env);
      return None;
    }

    method OpenSecurePacket(peer: Peer, sealed: Sealed) returns (r: Option<Packet>)
      modifies registry
      ensures r == Opened(old(State()), peer, sealed) && State() == AfterOpening(old(State()), peer, sealed)
    {
      if peer !in registry.sessions || registry.sessions[peer].secure.None? {
        return None;
      }
      var secure := registry.sessions[peer].secure.value;
      var plaintext := OpenResult(secure.codec, secure.ciphers.inbound, sealed);
      Put(peer, registry.sessions[peer].(secure := Some(secure.(codec := AfterOpen(secure.codec, secure.ciphers.inbound, sealed)))));
      if plaintext.Err? || plaintext.value.Junk? {
        return None;
      }
      return Some(plaintext.value.packet);
    }

    /** `encodes` and `cipherOk` are whether the packet encodes and the cipher takes it; the counter
        is spent as soon as the cipher is called. Without a secure session there is nothing to seal with. */
    method SealSecurePacket(peer: Peer, packet: Packet, encodes: bool, cipherOk: bool) returns (r: Option<Sealed>)
      modifies registry
      ensures var h := old(State());
              if !IsSecure(h.sessions, peer) || !encodes then State() == h && r == None
              else State() == AfterSealing(h, peer) && r == if cipherOk then Some(SealedFor(h, peer, packet)) else None
    {
      if !IsSecure(registry.sessions, peer) || !encodes {
        return None;
      }
      var secure := registry.sessions[peer].secure.value;
      var counter := secure.codec.sendCounter;
      Put(peer, registry.sessions[peer].(secure := Some(secure.(codec := AfterSeal(secure.codec)))));
      if !cipherOk {
        return None;
      }
      return Some(SealPacket(secure.ciphers.outbound, counter, secure.codec.aad, Encoded(packet)));
    }

    method FinishSessionKeyExchange(peer: Peer, confirm: ClientKeyConfirm, env: Env) returns (sessionId: Option<Bytes16>)
      requires peer in registry.sessions
      modifies registry
      ensures State() == old(State()).Put(peer, Confirmed(old(State()).sessions[peer], confirm, setup, env))
      ensures sessionId == if ConfirmsExchange(old(State()).sessions[peer], confirm, setup, env)
                           then Some(old(State()).sessions[peer].pendingExchange.value.exchange.sessionId) else None
    {
      var session := registry.sessions[peer];
      var pending := session.pendingExchange;
      session := session.(pendingExchange := None);
      Put(peer, session);
      if pending.None? {
        return None;
      }
      var exchange := pending.value.exchange;
      if confirm.sessionId != exchange.sessionId || env.ms > exchange.expiresAtUnixMs || session.deviceId != Some(confirm.deviceId) {
        return None;
      }
      if session.deviceKey.None? {
        return None;
      }
      var serverHash := setup.crypto.sha(ServerSigningPayload(exchange));
      if !setup.crypto.verify(session.deviceKey.value, ClientSigningPayload(serverHash, confirm), confirm.signature) {
        return None;
      }
      var shared := setup.crypto.agree(pending.value.ephemeralSecret, confirm.ephemeralPublicKeyDer);
      if shared.None? {
        return None;
      }
      Put(peer, session.(secure := Some(Established(pending.value, confirm, shared.value, setup.crypto))));
      return Some(exchange.sessionId);
    }

    method RoutePairingRequest(peer: Peer, body: Body, events: seq<BackendEvent>, env: Env) returns (r: Result<Outcome, RouteError>)
      requires peer in registry.sessions
      modifies this, registry
      ensures State() == RoutePairing(old(State()), peer, body, events, setup, env).host
      ensures r == RoutePairing(old(State()), peer, body, events, setup, env).result
    {
      if !body.PairingRequestBody? {
        return Err(Protocol);
      }
      var key := if body.publicKey == [] then None else Some(body.publicKey);
      var session := registry.sessions[peer].(deviceId := Some(body.deviceName), deviceKey := key, pendingAuth := None);
      if setup.policy == DevAutoApprove {
        var device := setup.crypto.trustedDevice(key, peer);
        Put(peer, session.(permission := Approved, deviceId := Some(device)));
        var result := BuildControl(PairingResult, PairingResultBody(true, Some(device)), env);
        var exchange := BeginSessionKeyExchange(peer, env);
        return Ok(Outcome(events + [PairingRequested(peer, true), PeerAutoApproved(peer),
                                    SessionKeyExchangeQueued(peer, env.sessionId), PairingResultQueued(peer, true)],
                          [Outgoing(peer, result), Outgoing(peer, exchange)]));
      }
      Put(peer, session);
      if body.proof == [] {
        return Ok(Outcome(events + [PairingRequested(peer, false)], []));
      }
      var failure := VerifyPairingCodeForPeer(peer, body.proof, env);
      if failure.None? {
        return Ok(Outcome(events + [PairingRequested(peer, true)], []));
      }
      var attempts := registry.sessions[peer].pairingAttempts;
      var remaining := if attempts < MAX_PAIRING_CODE_ATTEMPTS then MAX_PAIRING_CODE_ATTEMPTS - attempts else 0;
      var response := BuildControl(PairingResult, PairingResultBody(false, None), env);
      return Ok(Outcome(events + [PairingCodeRejected(peer, remaining, failure.value), PairingResultQueued(peer, false)],
                        [Outgoing(peer, response)]));
    }

    method RouteAuthResponse(peer: Peer, body: Body, events: seq<BackendEvent>, env: Env) returns (r: Result<Outcome, RouteError>)
      requires peer in registry.sessions
      modifies this, registry
      ensures State() == RouteAuth(old(State()), peer, body, events, setup, env).host
      ensures r == RouteAuth(old(State()), peer, body, events, setup, env).result
    {
      if !body.AuthResponseBody? {
        return Err(Protocol);
      }
      var session := registry.sessions[peer];
      var failure := AuthFailure(session, body, setup, env);
      if failure.Some? {
        Put(peer, session.(permission := Rejected, pendingAuth := None));
        var refusal := BuildControl(PairingResult, PairingResultBody(false, None), env);
        return Ok(Outcome(events + [PacketIgnored(peer, failure.value), PairingResultQueued(peer, false)], [Outgoing(peer, refusal)]));
      }
      var device := session.pendingAuth.value.expectedDevice;
      Put(peer, session.(permission := Approved, deviceId := Some(device), pendingAuth := None));
      var result := BuildControl(PairingResult, PairingResultBody(true, Some(device)), env);
      var exchange := BeginSessionKeyExchange(peer, env);
      return Ok(Outcome(events + [SessionKeyExchangeQueued(peer, env.sessionId), TrustedDeviceAuthenticated(peer, device),
                                  PairingResultQueued(peer, true)],
                        [Outgoing(peer, result), Outgoing(peer, exchange)]));
    }

    method RouteInputPacket(peer: Peer, packet: Packet, kind: InputKind, events: seq<BackendEvent>, env: Env) returns (r: Result<Outcome, RouteError>)
      requires peer in registry.sessions
      modifies registry
      ensures State() == RouteInput(old(State()), peer, packet, kind, events, setup, env).host
      ensures r == RouteInput(old(State()), peer, packet, kind, events, setup, env).result
    {
      if !(packet.payload.InputBody? && packet.payload.kind == kind) {
        return Err(Protocol);
      }
      var accepted := registry.AcceptInputWatermark(peer, packet.sequence, packet.payload.timestampUs);
      if !accepted {
        return Ok(Outcome(events + [PacketIgnored(peer, LateInput)], []));
      }
      if kind in setup.bridges && !env.injects {
        return Err(InputFailed);
      }
      return Ok(Outcome(events + InputEvents(peer, kind, kind in setup.bridges), []));
    }

    method RouteApprovedPacket(peer: Peer, packet: Packet, events: seq<BackendEvent>, env: Env) returns (r: Result<Outcome, RouteError>)
      requires peer in registry.sessions
      modifies this, registry
      ensures State() == RouteApproved(old(State()), peer, packet, events, setup, env).host
      ensures r == RouteApproved(old(State()), peer, packet, events, setup, env).result
    {
      var kind := packet.messageKind;
      if kind == SessionKeyConfirm {
        if !packet.payload.KeyConfirmBody? {
          return Err(Protocol);
        }
        var sessionId := FinishSessionKeyExchange(peer, packet.payload.confirm, env);
        if sessionId.None? {
          return Err(Protocol);
        }
        return Ok(Outcome(events + [SessionSecured(peer, sessionId.value)], []));
      }
      if !AllowsInput(registry.sessions[peer], kind) {
        return Ok(Outcome(events + [PacketIgnored(peer, DeniedByPermissions)], []));
      }
      if InputKindOf(kind).Some? {
        r := RouteInputPacket(peer, packet, InputKindOf(kind).value, events, env);
        return;
      }
      match kind {
        case LatencyPing =>
          if !packet.payload.LatencyPingBody? {
            return Err(Protocol);
          }
          var pong := BuildControl(LatencyPong, LatencyPongBody(packet.payload.sequence, packet.payload.clientSendUs, env.us), env);
          return Ok(Outcome(events + [LatencyPongQueued(peer)], [Outgoing(peer, pong)]));
        case EncoderConfig =>
          if !packet.payload.EncoderConfigBody? {
            return Err(Protocol);
          }
          Put(peer, registry.sessions[peer].(encoder := Some(packet.payload.settings)));
          return Ok(Outcome(events + [EncoderConfigUpdated(peer)], []));
        case _ =>
          return Ok(Outcome(events + [PacketRouted(peer)], []));
      }
    }

    method RoutePacket(peer: Peer, packet: Packet, env: Env) returns (r: Result<Outcome, RouteError>)
      modifies this, registry
      ensures State() == Route(old(State()), peer, packet, setup, env).host
      ensures r == Route(old(State()), peer, packet, setup, env).result
    {
      if peer !in registry.sessions {
        var admitted := registry.AllowNewPendingPeer(peer, env.instant);
        if !admitted {
          return Ok(Outcome([PendingRateLimited(peer), PacketIgnored(peer, RateLimited)], []));
        }
      }
      Ensure(peer, env);
      var session := registry.sessions[peer];
      session := session.(lastSeen := env.instant, packetsReceived := session.packetsReceived + 1);
      Put(peer, session);
      assert State() == Seen(Attempted(old(State()), peer, env), peer, env);
      var events := if session.packetsReceived == 1 then [SessionDiscovered(peer)] else [];
      if session.permission == Rejected {
        return Ok(Outcome(events + [PacketIgnored(peer, PeerRejected)], []));
      }
      r := RouteKnownPacket(peer, packet, events, env);
    }

    /** The session was just seen, and is not rejected. */
    method RouteKnownPacket(peer: Peer, packet: Packet, events: seq<BackendEvent>, env: Env) returns (r: Result<Outcome, RouteError>)
      requires peer in registry.sessions
      modifies this, registry
      ensures State() == RouteKnown(old(State()), peer, packet, events, setup, env).host
      ensures r == RouteKnown(old(State()), peer, packet, events, setup, env).result
    {
      var session, told := registry.sessions[peer], events;
      if packet.messageKind == PairingRequest {
        r := RoutePairingRequest(peer, packet.payload, events, env);
        return;
      }
      if packet.messageKind == AuthResponse {
        r := RouteAuthResponse(peer, packet.payload, events, env);
        return;
      }
      if session.permission != Approved {
        if setup.policy != DevAutoApprove {
          return Ok(Outcome(events + [PermissionRequired(peer)], []));
        }
        var device := if session.deviceId.Some? then session.deviceId else Some(setup.crypto.devDevice(peer));
        Put(peer, session.(permission := Approved, deviceId := device));
        told := told + [PeerAutoApproved(peer)];
      }
      r := RouteApprovedPacket(peer, packet, told, env);
    }
  }
}
