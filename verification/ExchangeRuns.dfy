/**
 What a run can do to a session id: a step draws it for one peer, the peer's offer carries it, and at
 most one secure session answers the offer. Nothing but sealing and opening changes a secure session.
 */
module ExchangeRuns {
  import opened Bytes
  import opened Wrappers
  import opened Transport
  import opened SessionWire
  import opened SecureChannel
  import opened Sessions
  import opened Router
  import opened HostRun

  /** The session id a key's transcript starts with, after its domain. */
  function IdOf(key: Key): seq<byte> {
    if |key.transcript| >= 47 then key.transcript[31..47] else []
  }

  /** A key derived for an exchange is a key of that exchange's session. */
  lemma EstablishedId(pending: PendingExchange, confirm: ClientKeyConfirm, secret: seq<byte>, crypto: Crypto)
    ensures var ciphers := Established(pending, confirm, secret, crypto).ciphers;
            IdOf(ciphers.outbound) == pending.exchange.sessionId && IdOf(ciphers.inbound) == pending.exchange.sessionId
  {
    var e := pending.exchange;
    var timed := LittleEndian(e.expiresAtUnixMs, 8) + (e.salt + Field(e.ephemeralPublicKeyDer));
    var client := ClientSigningPayload(crypto.sha(ServerSigningPayload(e)), confirm);
    assert (SERVER_DOMAIN + (e.sessionId + timed) + client)[31..47] == e.sessionId;
  }

  // ---------------------------------------------------------------------------------------------
  // Offers and sessions
  // ---------------------------------------------------------------------------------------------

  predicate Offered(h: Host, q: Peer, x: seq<byte>) {
    q in h.sessions && h.sessions[q].pendingExchange.Some? && h.sessions[q].pendingExchange.value.exchange.sessionId == x
  }

  predicate Held(h: Host, q: Peer, x: seq<byte>) {
    IsSecure(h.sessions, q) && SecureOf(h, q).sessionId == x
  }

  predicate SameOffer(h: Host, q: Peer, s: Session) {
    s.pendingExchange.Some? ==> q in h.sessions && s.pendingExchange == h.sessions[q].pendingExchange
  }

  predicate SameSecure(h: Host, q: Peer, s: Session) {
    s.secure.Some? ==> q in h.sessions && s.secure == h.sessions[q].secure
  }

  /** The offer of `h` has become the secure session of `s`, with nothing sealed or opened yet. */
  predicate Completes(h: Host, q: Peer, s: Session) {
    && s.secure.Some? && s.pendingExchange.None?
    && Offered(h, q, s.secure.value.sessionId)
    && IdOf(s.secure.value.ciphers.outbound) == s.secure.value.sessionId
    && IdOf(s.secure.value.ciphers.inbound) == s.secure.value.sessionId
    && s.secure.value.codec == NewCodec(SessionAad(s.secure.value.sessionId))
  }

  predicate NewlyDrawn(s: Session, drawn: Option<Bytes16>) {
    s.pendingExchange.Some? && drawn == Some(s.pendingExchange.value.exchange.sessionId)
  }

  /** Nothing but sealing and opening does more than this to a session: its offer is the one it had or the newly
      drawn one, its secure session the one it had or the completed offer. */
  predicate MovesTo(h: Host, q: Peer, s: Session, drawn: Option<Bytes16>) {
    && (SameOffer(h, q, s) || NewlyDrawn(s, drawn))
    && (SameSecure(h, q, s) || Completes(h, q, s))
  }

  predicate Moves(h: Host, h': Host, q: Peer, drawn: Option<Bytes16>) {
    q in h'.sessions ==> MovesTo(h, q, h'.sessions[q], drawn)
  }

  predicate Still(h: Host, h': Host, q: Peer) {
    q in h'.sessions ==> SameOffer(h, q, h'.sessions[q]) && SameSecure(h, q, h'.sessions[q])
  }

  /** What only the step's own peer may be drawn. */
  function Share(peer: Peer, drawn: Bytes16, q: Peer): Option<Bytes16> {
    if q == peer then Some(drawn) else None
  }

  lemma StillThenMoves(h: Host, h1: Host, h2: Host, q: Peer, drawn: Option<Bytes16>)
    requires Still(h, h1, q) && Moves(h1, h2, q, drawn)
    ensures Moves(h, h2, q, drawn)
  {
  }

  lemma StillThen(h: Host, h1: Host, h2: Host, q: Peer)
    requires Still(h, h1, q) && Still(h1, h2, q)
    ensures Still(h, h2, q)
  {
  }

  lemma EnsureStill(h: Host, peer: Peer, env: Env, q: Peer)
    ensures Still(h, h.Ensure(peer, env), q)
  {
  }

  lemma BegunMoves(h: Host, peer: Peer, setup: Setup, env: Env, q: Peer)
    ensures Moves(h, ExchangeBegun(h, peer, setup, env), q, Share(peer, env.sessionId, q))
  {
    EnsureStill(h, peer, env, q);
  }

  lemma ApproveMoves(h: Host, peer: Peer, device: Text, permissions: Permissions, setup: Setup, env: Env, q: Peer)
    ensures Still(h, Approve(h, peer, device, permissions, env), q)
    ensures Moves(h, ApproveWithResponse(h, peer, device, permissions, setup, env).0, q, Share(peer, env.sessionId, q))
  {
    var h1 := Approve(h, peer, device, permissions, env);
    EnsureStill(h, peer, env, q);
    StillThen(h, h.Ensure(peer, env), h1, q);
    BegunMoves(Advanced(h1), peer, setup, env, q);
    StillThen(h, h1, Advanced(h1), q);
    StillThenMoves(h, Advanced(h1), ExchangeBegun(Advanced(h1), peer, setup, env), q, Share(peer, env.sessionId, q));
  }

  lemma RotateStill(h: Host, env: Env, q: Peer)
    ensures Still(h, Rotate(h, env), q)
    ensures Still(h, Unexpired(h, env), q)
  {
  }

  lemma IssueStill(h: Host, peer: Peer, env: Env, q: Peer)
    ensures Still(h, IssueChallenge(h, peer, env).0, q)
  {
    var h1 := Unexpired(h, env);
    RotateStill(h, env, q);
    EnsureStill(h1, peer, env, q);
    StillThen(h, h1, h1.Ensure(peer, env), q);
    StillThen(h, h1.Ensure(peer, env), IssueChallenge(h, peer, env).0, q);
  }

  lemma VerifyStill(h: Host, peer: Peer, proof: seq<byte>, setup: Setup, env: Env, q: Peer)
    ensures Still(h, VerifyProof(h, peer, proof, setup, env).0, q)
  {
    var h1 := h.Ensure(peer, env);
    EnsureStill(h, peer, env, q);
    var s := RefreshAttempts(h1.sessions[peer], env.ms);
    var verified := h1.Put(peer, s.(pendingPairing := None, pairingAttempts := 0, codeVerified := true));
    RotateStill(verified, env, q);
    StillThen(h1, verified, Rotate(verified, env), q);
    assert Still(h1, VerifyProof(h, peer, proof, setup, env).0, q);
    StillThen(h, h1, VerifyProof(h, peer, proof, setup, env).0, q);
  }

  // ---------------------------------------------------------------------------------------------
  // Every step
  // ---------------------------------------------------------------------------------------------

  lemma PairingMoves(h: Host, peer: Peer, body: Body, events: seq<BackendEvent>, setup: Setup, env: Env, q: Peer)
    requires peer in h.sessions
    ensures Moves(h, RoutePairing(h, peer, body, events, setup, env).host, q, Share(peer, env.sessionId, q))
  {
    if body.PairingRequestBody? {
      var key := if body.publicKey == [] then None else Some(body.publicKey);
      var s := h.sessions[peer].(deviceId := Some(body.deviceName), deviceKey := key, pendingAuth := None);
      if setup.policy == DevAutoApprove {
        var h2 := Advanced(h.Put(peer, s.(permission := Approved, deviceId := Some(setup.crypto.trustedDevice(key, peer)))));
        BegunMoves(h2, peer, setup, env, q);
        StillThenMoves(h, h2, ExchangeBegun(h2, peer, setup, env), q, Share(peer, env.sessionId, q));
      } else {
        var h1 := h.Put(peer, s);
        VerifyStill(h1, peer, body.proof, setup, env, q);
        StillThen(h, h1, VerifyProof(h1, peer, body.proof, setup, env).0, q);
      }
    }
  }

  lemma AuthMoves(h: Host, peer: Peer, body: Body, events: seq<BackendEvent>, setup: Setup, env: Env, q: Peer)
    requires peer in h.sessions
    ensures Moves(h, RouteAuth(h, peer, body, events, setup, env).host, q, Share(peer, env.sessionId, q))
  {
    if body.AuthResponseBody? && AuthFailure(h.sessions[peer], body, setup, env).None? {
      var s := h.sessions[peer];
      var h2 := Advanced(h.Put(peer, s.(permission := Approved, deviceId := Some(s.pendingAuth.value.expectedDevice), pendingAuth := None)));
      BegunMoves(h2, peer, setup, env, q);
      StillThenMoves(h, h2, ExchangeBegun(h2, peer, setup, env), q, Share(peer, env.sessionId, q));
    }
  }

  lemma ConfirmedMoves(h: Host, peer: Peer, confirm: ClientKeyConfirm, setup: Setup, env: Env)
    requires peer in h.sessions
    ensures MovesTo(h, peer, Confirmed(h.sessions[peer], confirm, setup, env), None)
  {
    var s := h.sessions[peer];
    if ConfirmsExchange(s, confirm, setup, env) {
      var secret := setup.crypto.agree(s.pendingExchange.value.ephemeralSecret, confirm.ephemeralPublicKeyDer).value;
      EstablishedId(s.pendingExchange.value, confirm, secret, setup.crypto);
    }
  }

  lemma ApprovedMoves(h: Host, peer: Peer, packet: Packet, events: seq<BackendEvent>, setup: Setup, env: Env, q: Peer)
    requires peer in h.sessions
    ensures Moves(h, RouteApproved(h, peer, packet, events, setup, env).host, q, None)
  {
    if packet.messageKind == SessionKeyConfirm {
      if packet.payload.KeyConfirmBody? {
        ConfirmedMoves(h, peer, packet.payload.confirm, setup, env);
      }
    } else if InputKindOf(packet.messageKind).Some? {
      InputStill(h, peer, packet, InputKindOf(packet.messageKind).value, events, setup, env, q);
    }
  }

  lemma InputStill(h: Host, peer: Peer, packet: Packet, kind: InputKind, events: seq<BackendEvent>, setup: Setup, env: Env, q: Peer)
    requires peer in h.sessions
    ensures Still(h, RouteInput(h, peer, packet, kind, events, setup, env).host, q)
  {
  }

  lemma KnownMoves(h: Host, peer: Peer, packet: Packet, events: seq<BackendEvent>, setup: Setup, env: Env, q: Peer)
    requires peer in h.sessions
    ensures Moves(h, RouteKnown(h, peer, packet, events, setup, env).host, q, Share(peer, env.sessionId, q))
  {
    PairingMoves(h, peer, packet.payload, events, setup, env, q);
    AuthMoves(h, peer, packet.payload, events, setup, env, q);
    var s := h.sessions[peer];
    if s.permission == Approved {
      ApprovedMoves(h, peer, packet, events, setup, env, q);
    } else {
      var device := if s.deviceId.Some? then s.deviceId else Some(setup.crypto.devDevice(peer));
      var approved := h.Put(peer, s.(permission := Approved, deviceId := device));
      ApprovedMoves(approved, peer, packet, events + [PeerAutoApproved(peer)], setup, env, q);
      StillThenMoves(h, approved, RouteApproved(approved, peer, packet, events + [PeerAutoApproved(peer)], setup, env).host, q, None);
    }
  }

  lemma SeenStill(h: Host, peer: Peer, env: Env, q: Peer)
    ensures Still(h, Attempted(h, peer, env), q)
    ensures Still(h, Seen(Attempted(h, peer, env), peer, env), q)
  {
    var h0 := Attempted(h, peer, env);
    EnsureStill(h0, peer, env, q);
    StillThen(h0, h0.Ensure(peer, env), Seen(h0, peer, env), q);
    StillThen(h, h0, Seen(h0, peer, env), q);
  }

  lemma RouteMoves(h: Host, peer: Peer, packet: Packet, setup: Setup, env: Env, q: Peer)
    ensures Moves(h, Route(h, peer, packet, setup, env).host, q, Share(peer, env.sessionId, q))
  {
    SeenStill(h, peer, env, q);
    if LetIn(h, peer, env) {
      var h1 := Seen(Attempted(h, peer, env), peer, env);
      if h1.sessions[peer].permission != Rejected {
        var events := if h1.sessions[peer].packetsReceived == 1 then [SessionDiscovered(peer)] else [];
        KnownMoves(h1, peer, packet, events, setup, env, q);
        StillThenMoves(h, h1, RouteKnown(h1, peer, packet, events, setup, env).host, q, Share(peer, env.sessionId, q));
      }
    }
  }

  /** What one step may draw: a session id for one peer. */
  datatype Draw = Draw(peer: Peer, id: Bytes16)

  function DrawOf(step: Step): Option<Draw> {
    match step
    case PollStep(i) => if i.received.Arrived? then Some(Draw(i.received.peer, i.env.sessionId)) else None
    case ApproveStep(peer, _, _, _, _, env) => Some(Draw(peer, env.sessionId))
    case _ => None
  }

  function ShareOf(draw: Option<Draw>, q: Peer): Option<Bytes16> {
    if draw.Some? then Share(draw.value.peer, draw.value.id, q) else None
  }

  lemma HostStepMoves(h: Host, step: Step, setup: Setup, q: Peer)
    requires !step.PollStep? && !step.FlushStep? && !step.MediaStep?
    ensures Moves(h, HostStep(h, step, setup), q, ShareOf(DrawOf(step), q))
  {
    match step {
      case ApproveStep(peer, device, permissions, notify, taken, env) => ApproveMoves(h, peer, device, permissions, setup, env, q);
      case RejectStep(peer, env) => EnsureStill(h, peer, env, q);
      case ChallengeStep(peer, device, permissions, env) =>
        EnsureStill(h, peer, env, q);
        StillThen(h, h.Ensure(peer, env), ChallengeTrusted(h, peer, device, permissions, env).0, q);
      case IssueStep(peer, env) => IssueStill(h, peer, env, q);
      case PermissionsStep(device, permissions) =>
    }
  }

  /** Nobody but the owner ever has anything of the id. */
  predicate Foreign(h: Host, q: Peer, x: seq<byte>) {
    !Offered(h, q, x) && !Held(h, q, x)
  }

  lemma OtherMoves(h: Host, h': Host, x: seq<byte>, q: Peer, draw: Option<Bytes16>)
    requires Foreign(h, q, x) && Moves(h, h', q, draw) && draw != Some(x)
    ensures Foreign(h', q, x)
  {
  }

  /** A step that draws an id gives it to its owner, and only once. */
  predicate Fair(draw: Option<Draw>, x: seq<byte>, p: Peer, drawn: bool) {
    draw.Some? && draw.value.id == x ==> draw.value.peer == p && !drawn
  }

  predicate Draws(draw: Option<Draw>, x: seq<byte>) {
    draw.Some? && draw.value.id == x
  }

  predicate DrawnBefore(steps: seq<Step>, x: seq<byte>, i: nat)
    requires i <= |steps|
  {
    exists k :: 0 <= k < i && Draws(DrawOf(steps[k]), x)
  }

  /** The random session ids a run draws never repeat. */
  ghost predicate DistinctDraws(steps: seq<Step>) {
    forall i, j :: 0 <= i < j < |steps| && DrawOf(steps[i]).Some? && DrawOf(steps[j]).Some? ==>
      DrawOf(steps[i]).value.id != DrawOf(steps[j]).value.id
  }

}
