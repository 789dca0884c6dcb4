/**
 The session registry of the host backend: who is pending, approved or rejected, admission of new
 peers, eviction, and input watermarks. Times and the order in which a hash map lists its peers are
 inputs.
 */
module Sessions {
  import opened Bytes
  import opened Wrappers
  import opened Transport
  import opened SessionWire
  import opened SecureChannel

  const MAX_PENDING_SESSIONS: nat := 50
  const MAX_PENDING_ATTEMPTS_PER_IP: nat := 12
  const PENDING_ATTEMPT_WINDOW: nat := 10_000_000_000 // ten seconds, in nanoseconds

  type Text = seq<byte>

  datatype Permission = Pending | Approved | Rejected

  datatype Permissions = Permissions(allowPen: bool, allowTouch: bool, allowKeyboard: bool, allowMouse: bool, allowGamepad: bool)

  const ALL_ALLOWED: Permissions := Permissions(true, true, true, true, true)

  datatype EncoderSettings = EncoderSettings(width: u32, height: u32, maxFps: u16, targetBitrateKbps: u32)

  datatype PendingAuth = PendingAuth(
    challengeId: u64,
    nonce: Bytes32,
    issuedAtMs: u64,
    expectedDevice: Text,
    publicKey: seq<byte>)

  datatype PendingPairing = PendingPairing(salt: Bytes32, expiresAtMs: u64)

  datatype PendingExchange = PendingExchange(exchange: ServerKeyExchange, ephemeralSecret: seq<byte>)

  datatype SecureSession = SecureSession(sessionId: Bytes16, ciphers: CipherPair, codec: LiveCodec)

  datatype Watermark = Watermark(sequence: u64, timestampUs: u64)

  /** One client. The last input sequence and timestamp are set together, so they are one field. */
  datatype Session = Session(
    deviceId: Option<Text>,
    deviceKey: Option<seq<byte>>,
    pendingAuth: Option<PendingAuth>,
    pendingPairing: Option<PendingPairing>,
    pairingAttempts: nat,
    attemptWindowStartMs: u64,
    codeVerified: bool,
    pendingExchange: Option<PendingExchange>,
    secure: Option<SecureSession>,
    permission: Permission,
    permissions: Permissions,
    packetsReceived: nat,
    lastSeen: nat,
    encoder: Option<EncoderSettings>,
    watermark: Option<Watermark>)

  type SessionMap = map<Peer, Session>

  function NewSession(instant: nat, ms: u64): Session {
    Session(None, None, None, None, 0, ms, false, None, None, Pending, ALL_ALLOWED, 0, instant, None, None)
  }

  function PendingPeers(sessions: SessionMap): set<Peer> {
    set p | p in sessions && sessions[p].permission == Pending
  }

  // ---------------------------------------------------------------------------------------------
  // Eviction
  // ---------------------------------------------------------------------------------------------

  /** The first oldest pending peer in the order the map lists its peers. */
  function OldestPending(sessions: SessionMap, order: seq<Peer>): (r: Option<Peer>)
    ensures r.Some? ==> r.value in sessions && sessions[r.value].permission == Pending
    ensures r.Some? ==> (forall p :: p in order && p in sessions && sessions[p].permission == Pending
                           ==> sessions[r.value].lastSeen <= sessions[p].lastSeen)
    ensures r.None? ==> forall p :: p in order ==> p !in PendingPeers(sessions)
  {
    if order == [] then None
    else
      var best, last := OldestPending(sessions, order[..|order| - 1]), order[|order| - 1];
      assert order == order[..|order| - 1] + [last];
      Older(sessions, best, last)
  }

  function Older(sessions: SessionMap, best: Option<Peer>, p: Peer): Option<Peer>
    requires best.Some? ==> best.value in sessions
  {
    if p in sessions && sessions[p].permission == Pending
       && (best.None? || sessions[p].lastSeen < sessions[best.value].lastSeen)
    then Some(p) else best
  }

  /** Among those seen least recently it is the one listed first. */
  lemma {:induction false} FirstOfOldest(sessions: SessionMap, order: seq<Peer>) returns (k: nat)
    requires OldestPending(sessions, order).Some?
    ensures k < |order| && order[k] == OldestPending(sessions, order).value
    ensures forall j :: 0 <= j < k && order[j] in PendingPeers(sessions) ==> sessions[order[j]].lastSeen > sessions[order[k]].lastSeen
  {
    var rest, last := order[..|order| - 1], order[|order| - 1];
    if OldestPending(sessions, rest).Some? && OldestPending(sessions, rest) == OldestPending(sessions, order) {
      k := FirstOfOldest(sessions, rest);
    } else {
      k := |order| - 1;
      forall j | 0 <= j < k && order[j] in PendingPeers(sessions)
        ensures sessions[order[j]].lastSeen > sessions[order[k]].lastSeen
      {
        assert order[j] == rest[j];
        assert rest[j] in rest;
      }
    }
  }

  function EvictIfNeeded(sessions: SessionMap, order: seq<Peer>): SessionMap {
    if |PendingPeers(sessions)| < MAX_PENDING_SESSIONS then sessions
    else
      match OldestPending(sessions, order)
      case None => sessions
      case Some(p) => sessions - {p}
  }

  /** The sessions after making sure `peer` has one. */
  function EnsurePending(sessions: SessionMap, peer: Peer, order: seq<Peer>, instant: nat, ms: u64): (r: SessionMap)
    ensures peer in r
    ensures peer in sessions ==> r == sessions
  {
    if peer in sessions then sessions
    else EvictIfNeeded(sessions, order)[peer := NewSession(instant, ms)]
  }

  /** Only pending sessions are ever evicted: every other session is still there, unchanged. */
  lemma OnlyPendingEvicted(sessions: SessionMap, peer: Peer, order: seq<Peer>, instant: nat, ms: u64, other: Peer)
    requires other in sessions && sessions[other].permission != Pending
    ensures var r := EnsurePending(sessions, peer, order, instant, ms);
            other in r && r[other] == sessions[other]
  {
  }

  /** With an order that lists every pending peer, at most fifty sessions are pending afterwards if
      at most fifty were before, and if one had to go it was one seen least recently. */
  lemma PendingBounded(sessions: SessionMap, peer: Peer, order: seq<Peer>, instant: nat, ms: u64)
    requires |PendingPeers(sessions)| <= MAX_PENDING_SESSIONS
    requires forall p :: p in PendingPeers(sessions) ==> p in order
    ensures var r := EnsurePending(sessions, peer, order, instant, ms);
            && |PendingPeers(r)| <= MAX_PENDING_SESSIONS
            && forall gone, p :: gone in sessions && gone !in r && p in PendingPeers(sessions)
                 ==> sessions[gone].lastSeen <= sessions[p].lastSeen
  {
    if peer !in sessions {
      var pending := PendingPeers(sessions);
      var r := EnsurePending(sessions, peer, order, instant, ms);
      if |pending| < MAX_PENDING_SESSIONS {
        assert PendingPeers(r) == pending + {peer};
      } else {
        var p :| p in pending;
        var gone := OldestPending(sessions, order).value;
        assert gone in pending;
        assert PendingPeers(r) == (pending - {gone}) + {peer};
      }
    }
  }

  // ---------------------------------------------------------------------------------------------
  // Admission
  // ---------------------------------------------------------------------------------------------

  /** `duration_since`, which does not go below zero. */
  function Since(now: nat, then_: nat): nat {
    if now < then_ then 0 else now - then_
  }

  /** The attempts left after dropping those at the front that are older than the window. */
  function Purged(attempts: seq<nat>, now: nat): seq<nat> {
    if attempts != [] && Since(now, attempts[0]) > PENDING_ATTEMPT_WINDOW then Purged(attempts[1..], now) else attempts
  }

  function AttemptsOf(attempts: map<nat, seq<nat>>, ip: nat): seq<nat> {
    if ip in attempts then attempts[ip] else []
  }

  predicate Admits(attempts: seq<nat>, now: nat) {
    |Purged(attempts, now)| < MAX_PENDING_ATTEMPTS_PER_IP
  }

  function AfterAttempt(attempts: seq<nat>, now: nat): seq<nat> {
    if Admits(attempts, now) then Purged(attempts, now) + [now] else Purged(attempts, now)
  }

  // ---------------------------------------------------------------------------------------------
  // Input
  // ---------------------------------------------------------------------------------------------

  predicate AllowsInput(session: Session, kind: MessageKind) {
    match kind
    case StylusInputBatch => session.permissions.allowPen
    case TouchInputBatch => session.permissions.allowTouch
    case KeyboardInput => session.permissions.allowKeyboard
    case MouseInput => session.permissions.allowMouse
    case GamepadInput => session.permissions.allowGamepad
    case _ => true
  }

  predicate Advances(session: Session, sequence: u64, timestampUs: u64) {
    session.watermark.None? || (session.watermark.value.sequence < sequence && session.watermark.value.timestampUs <= timestampUs)
  }

  predicate RequiresSecureTransport(sessions: SessionMap, peer: Peer) {
    && peer in sessions
    && sessions[peer].permission == Approved
    && sessions[peer].pendingExchange.Some?
    && sessions[peer].secure.None?
  }

  predicate IsSecure(sessions: SessionMap, peer: Peer) {
    peer in sessions && sessions[peer].secure.Some?
  }

  function WithPermissions(sessions: SessionMap, device: Text, permissions: Permissions): (r: SessionMap)
    ensures r.Keys == sessions.Keys
  {
    map p | p in sessions ::
      if sessions[p].deviceId == Some(device) then sessions[p].(permissions := permissions) else sessions[p]
  }

  class SessionRegistry {
    var sessions: SessionMap
    var pendingAttemptsByIp: map<nat, seq<nat>>

    constructor ()
      ensures sessions == map[] && pendingAttemptsByIp == map[]
    {
      sessions := map[];
      pendingAttemptsByIp := map[];
    }

    method AllowNewPendingPeer(peer: Peer, now: nat) returns (ok: bool)
      modifies this`pendingAttemptsByIp
      ensures ok == Admits(AttemptsOf(old(pendingAttemptsByIp), peer.ip), now)
      ensures pendingAttemptsByIp == old(pendingAttemptsByIp)[peer.ip := AfterAttempt(AttemptsOf(old(pendingAttemptsByIp), peer.ip), now)]
    {
      var attempts := if peer.ip in pendingAttemptsByIp then pendingAttemptsByIp[peer.ip] else [];
      while attempts != [] && Since(now, attempts[0]) > PENDING_ATTEMPT_WINDOW
        invariant Purged(attempts, now) == Purged(AttemptsOf(old(pendingAttemptsByIp), peer.ip), now)
        decreases |attempts|
      {
        attempts := attempts[1..];
      }
      ok := |attempts| < MAX_PENDING_ATTEMPTS_PER_IP;
      if ok {
        attempts := attempts + [now];
      }
      pendingAttemptsByIp := pendingAttemptsByIp[peer.ip := attempts];
    }

    method EvictOldestPendingIfNeeded(order: seq<Peer>)
      modifies this`sessions
      ensures sessions == EvictIfNeeded(old(sessions), order)
    {
      if |PendingPeers(sessions)| < MAX_PENDING_SESSIONS {
        return;
      }
      var oldest: Option<Peer> := None;
      for i := 0 to |order|
        invariant oldest == OldestPending(sessions, order[..i])
      {
        assert order[..i + 1][..i] == order[..i];
        oldest := Older(sessions, oldest, order[i]);
      }
      assert order[..|order|] == order;
      if oldest.Some? {
        sessions := sessions - {oldest.value};
      }
    }

    method EnsurePendingSession(peer: Peer, order: seq<Peer>, instant: nat, ms: u64)
      modifies this`sessions
      ensures sessions == EnsurePending(old(sessions), peer, order, instant, ms)
    {
      if peer !in sessions {
        EvictOldestPendingIfNeeded(order);
        sessions := sessions[peer := NewSession(instant, ms)];
      }
    }

    method AcceptInputWatermark(peer: Peer, sequence: u64, timestampUs: u64) returns (ok: bool)
      modifies this`sessions
      ensures ok <==> peer in old(sessions) && Advances(old(sessions)[peer], sequence, timestampUs)
      ensures sessions == if ok then old(sessions)[peer := old(sessions)[peer].(watermark := Some(Watermark(sequence, timestampUs)))]
                          else old(sessions)
    {
      if peer !in sessions {
        return false;
      }
      var session := sessions[peer];
      if session.watermark.Some? && (sequence <= session.watermark.value.sequence || timestampUs < session.watermark.value.timestampUs) {
        return false;
      }
      sessions := sessions[peer := session.(watermark := Some(Watermark(sequence, timestampUs)))];
      return true;
    }

    method UpdatePermissionsForDevice(device: Text, permissions: Permissions) returns (updated: nat)
      modifies this`sessions
      ensures sessions == WithPermissions(old(sessions), device, permissions)
      ensures updated == |set p | p in old(sessions) && old(sessions)[p].deviceId == Some(device)|
    {
      updated := |set p | p in sessions && sessions[p].deviceId == Some(device)|;
      sessions := WithPermissions(sessions, device, permissions);
    }
  }
}
