/**
 Who gets approved, and under which key, over runs. A log records every challenge to a returning device,
 every answer to one, and every pairing request, which withdraws the challenge and replaces the key; the
 host's state always agrees with it.
 */
module AuthRuns {
  import opened Bytes
  import opened Wrappers
  import opened Transport
  import opened SessionWire
  import opened Sessions
  import opened Router
  import opened Runtime
  import opened HostRun

  datatype AuthEvent =
    | Challenged(peer: Peer, challenge: PendingAuth)
    | Responded(peer: Peer, challenge: PendingAuth, response: Body, ms: u64, accepted: bool)
    | Requested(peer: Peer, key: Option<seq<byte>>)

  function AuthIn(h: Host, q: Peer): Option<PendingAuth> {
    if q in h.sessions then h.sessions[q].pendingAuth else None
  }

  function KeyIn(h: Host, q: Peer): Option<seq<byte>> {
    if q in h.sessions then h.sessions[q].deviceKey else None
  }

  predicate IsApproved(h: Host, q: Peer) {
    q in h.sessions && h.sessions[q].permission == Approved
  }

  predicate Decided(h: Host, q: Peer) {
    q in h.sessions && h.sessions[q].permission != Pending
  }

  // ---------------------------------------------------------------------------------------------
  // What each call logs
  // ---------------------------------------------------------------------------------------------

  /** The host that routes the packet once its session was seen, unless it is not let in or rejected. */
  function Heard(h: Host, peer: Peer, env: Env): (r: Option<Host>)
    ensures r.Some? ==> peer in r.value.sessions
  {
    if !LetIn(h, peer, env) then None
    else
      var h1 := Seen(Attempted(h, peer, env), peer, env);
      if h1.sessions[peer].permission == Rejected then None else Some(h1)
  }

  function KeyAsked(body: Body): Option<seq<byte>>
    requires body.PairingRequestBody?
  {
    if body.publicKey == [] then None else Some(body.publicKey)
  }

  function RouteLog(h: Host, peer: Peer, packet: Packet, setup: Setup, env: Env): seq<AuthEvent> {
    match Heard(h, peer, env)
    case None => []
    case Some(h1) =>
      if packet.messageKind == PairingRequest && packet.payload.PairingRequestBody? then
        [Requested(peer, KeyAsked(packet.payload))]
      else if packet.messageKind == AuthResponse && packet.payload.AuthResponseBody? && AuthIn(h1, peer).Some? then
        [Responded(peer, AuthIn(h1, peer).value, packet.payload, env.ms, AuthFailure(h1.sessions[peer], packet.payload, setup, env).None?)]
      else []
  }

  function ChallengeLog(h: Host, peer: Peer, device: Text, permissions: Permissions, env: Env): seq<AuthEvent> {
    var (h', packet) := ChallengeTrusted(h, peer, device, permissions, env);
    if packet.Some? && AuthIn(h', peer).Some? then [Challenged(peer, AuthIn(h', peer).value)] else []
  }

  function StepLog(b: Backend, step: Step, setup: Setup): seq<AuthEvent> {
    match step
    case PollStep(i) =>
      if Routes(b, i)
      then RouteLog(Routing(b, i), i.received.peer, Screened(Screening(b, i), i.received.peer, i.received.datagram).value, setup, i.env)
      else []
    case ChallengeStep(peer, device, permissions, env) => ChallengeLog(b.host, peer, device, permissions, env)
    case _ => []
  }

  function AuthLog(init: Env, steps: seq<Step>, setup: Setup, i: nat): seq<AuthEvent>
    requires i <= |steps|
  {
    if i == 0 then [] else AuthLog(init, steps, setup, i - 1) + StepLog(At(init, steps, setup, i - 1), steps[i - 1], setup)
  }

  // ---------------------------------------------------------------------------------------------
  // What a log says
  // ---------------------------------------------------------------------------------------------

  /** The challenge a peer may still answer. */
  function Outstanding(log: seq<AuthEvent>, p: Peer): Option<PendingAuth> {
    if log == [] then None
    else if log[|log| - 1].peer != p then Outstanding(log[..|log| - 1], p)
    else if log[|log| - 1].Challenged? then Some(log[|log| - 1].challenge)
    else None
  }

  /** The key of the last pairing request of a peer, if it made one. */
  function LastKey(log: seq<AuthEvent>, p: Peer, otherwise: Option<seq<byte>>): Option<seq<byte>> {
    if log == [] then otherwise
    else if log[|log| - 1].Requested? && log[|log| - 1].peer == p then log[|log| - 1].key
    else LastKey(log[..|log| - 1], p, otherwise)
  }

  /** A response passes for a challenge: the id and the device are the challenge's, not more than thirty
      seconds have gone by, and the signature is of the challenge under its key. */
  predicate Passes(c: PendingAuth, response: Body, ms: u64, crypto: Crypto) {
    && response.AuthResponseBody?
    && response.challengeId == c.challengeId && response.deviceId == c.expectedDevice
    && Elapsed(ms, c.issuedAtMs) <= TRUSTED_AUTH_CHALLENGE_TTL_MS
    && crypto.verify(c.publicKey, TrustedChallengePayload(c.expectedDevice, c.challengeId, c.nonce), response.signature)
  }

  predicate InOrder(before: seq<AuthEvent>, e: AuthEvent, crypto: Crypto) {
    e.Responded? ==> Outstanding(before, e.peer) == Some(e.challenge) && (e.accepted <==> Passes(e.challenge, e.response, e.ms, crypto))
  }

  predicate AllInOrder(log: seq<AuthEvent>, crypto: Crypto) {
    log == [] || (AllInOrder(log[..|log| - 1], crypto) && InOrder(log[..|log| - 1], log[|log| - 1], crypto))
  }

  /** A challenge a session holds is outstanding, and is for the key the session has. */
  predicate Backed(h: Host, log: seq<AuthEvent>, p: Peer) {
    AuthIn(h, p).Some? ==> Outstanding(log, p) == AuthIn(h, p) && KeyIn(h, p) == Some(AuthIn(h, p).value.publicKey)
  }

  ghost predicate Agrees(h: Host, log: seq<AuthEvent>, crypto: Crypto) {
    AllInOrder(log, crypto) && forall p :: Backed(h, log, p)
  }

  lemma Extends(log: seq<AuthEvent>, e: AuthEvent, crypto: Crypto)
    ensures AllInOrder(log + [e], crypto) <==> AllInOrder(log, crypto) && InOrder(log, e, crypto)
    ensures forall p :: Outstanding(log + [e], p)
                        == if e.peer != p then Outstanding(log, p) else if e.Challenged? then Some(e.challenge) else None
  {
    assert (log + [e])[..|log|] == log;
  }

  // ---------------------------------------------------------------------------------------------
  // Meek changes
  // ---------------------------------------------------------------------------------------------

  predicate Blank(s: Session) {
    s.deviceKey.None? && s.pendingAuth.None?
  }

  /** A session keeps its key and at most its challenge, or is a blank one. */
  predicate KeepsAuth(h: Host, h': Host, q: Peer) {
    q in h'.sessions ==>
      var s' := h'.sessions[q];
      Blank(s') || (q in h.sessions && s'.deviceKey == h.sessions[q].deviceKey && (s'.pendingAuth.Some? ==> s'.pendingAuth == h.sessions[q].pendingAuth))
  }

  /** A session past pending stays so and keeps its key. */
  predicate KeepsKey(h: Host, h': Host, q: Peer) {
    Decided(h, q) ==> Decided(h', q) && KeyIn(h', q) == KeyIn(h, q)
  }

  predicate Meek(h: Host, h': Host, q: Peer) {
    KeepsAuth(h, h', q) && KeepsKey(h, h', q)
  }

  predicate NotPromoted(h: Host, h': Host, q: Peer) {
    IsApproved(h', q) ==> IsApproved(h, q)
  }

  lemma MeekThen(h: Host, h1: Host, h2: Host, q: Peer)
    requires Meek(h, h1, q) && Meek(h1, h2, q)
    ensures Meek(h, h2, q)
    ensures NotPromoted(h, h1, q) && NotPromoted(h1, h2, q) ==> NotPromoted(h, h2, q)
  {
  }

  lemma EnsureMeek(h: Host, peer: Peer, env: Env, q: Peer)
    ensures Meek(h, h.Ensure(peer, env), q) && NotPromoted(h, h.Ensure(peer, env), q)
  {
    if Decided(h, q) {
      OnlyPendingEvicted(h.sessions, peer, env.order, env.instant, env.ms, q);
    }
  }

  lemma PutMeek(h: Host, peer: Peer, s: Session, q: Peer)
    requires peer in h.sessions
    requires s.deviceKey == h.sessions[peer].deviceKey
    requires s.pendingAuth.Some? ==> s.pendingAuth == h.sessions[peer].pendingAuth
    requires h.sessions[peer].permission != Pending ==> s.permission != Pending
    ensures Meek(h, h.Put(peer, s), q)
    ensures q != peer || s.permission == h.sessions[peer].permission || s.permission != Approved ==> NotPromoted(h, h.Put(peer, s), q)
  {
  }

  lemma BegunMeek(h: Host, peer: Peer, setup: Setup, env: Env, q: Peer)
    ensures Meek(h, ExchangeBegun(h, peer, setup, env), q) && NotPromoted(h, ExchangeBegun(h, peer, setup, env), q)
    ensures Meek(h, ExchangeBegun(Advanced(h), peer, setup, env), q) && NotPromoted(h, ExchangeBegun(Advanced(h), peer, setup, env), q)
  {
    EnsureMeek(h, peer, env, q);
    EnsureMeek(Advanced(h), peer, env, q);
  }

  lemma RotateMeek(h: Host, env: Env, q: Peer)
    ensures Meek(h, Rotate(h, env), q) && NotPromoted(h, Rotate(h, env), q)
    ensures Meek(h, Unexpired(h, env), q) && NotPromoted(h, Unexpired(h, env), q)
  {
  }

  lemma VerifyMeek(h: Host, peer: Peer, proof: seq<byte>, setup: Setup, env: Env, q: Peer)
    requires peer in h.sessions
    ensures Meek(h, VerifyProof(h, peer, proof, setup, env).0, q) && NotPromoted(h, VerifyProof(h, peer, proof, setup, env).0, q)
  {
    var h', s := VerifyProof(h, peer, proof, setup, env).0, RefreshAttempts(h.sessions[peer], env.ms);
    if VerifyProof(h, peer, proof, setup, env).1.None? {
      var verified := h.Put(peer, s.(codeVerified := true, pendingPairing := None, pairingAttempts := 0));
      assert h' == Rotate(verified, env);
      PutMeek(h, peer, verified.sessions[peer], q);
      RotateMeek(verified, env, q);
      MeekThen(h, verified, h', q);
    } else {
      assert h' == h.Put(peer, h'.sessions[peer]);
      PutMeek(h, peer, h'.sessions[peer], q);
    }
  }

  lemma IssueMeek(h: Host, peer: Peer, env: Env, q: Peer)
    ensures Meek(h, IssueChallenge(h, peer, env).0, q) && NotPromoted(h, IssueChallenge(h, peer, env).0, q)
  {
    var h1, h2, h' := Unexpired(h, env), Unexpired(h, env).Ensure(peer, env), IssueChallenge(h, peer, env).0;
    RotateMeek(h, env, q);
    EnsureMeek(h1, peer, env, q);
    MeekThen(h, h1, h2, q);
    PutMeek(h2, peer, h'.sessions[peer], q);
    MeekThen(h, h2, h', q);
  }

  lemma ApproveMeek(h: Host, peer: Peer, device: Text, permissions: Permissions, setup: Setup, env: Env, q: Peer)
    ensures Meek(h, Approve(h, peer, device, permissions, env), q)
    ensures Meek(h, ApproveWithResponse(h, peer, device, permissions, setup, env).0, q)
    ensures q != peer ==> NotPromoted(h, Approve(h, peer, device, permissions, env), q)
                          && NotPromoted(h, ApproveWithResponse(h, peer, device, permissions, setup, env).0, q)
  {
    var h1, h2 := h.Ensure(peer, env), Approve(h, peer, device, permissions, env);
    EnsureMeek(h, peer, env, q);
    PutMeek(h1, peer, h2.sessions[peer], q);
    MeekThen(h, h1, h2, q);
    BegunMeek(h2, peer, setup, env, q);
    MeekThen(h, h2, ExchangeBegun(Advanced(h2), peer, setup, env), q);
  }

  lemma RejectMeek(h: Host, peer: Peer, env: Env, q: Peer)
    ensures Meek(h, RejectWithResponse(h, peer, env).0, q) && NotPromoted(h, RejectWithResponse(h, peer, env).0, q)
  {
    var h1, h' := h.Ensure(peer, env), RejectWithResponse(h, peer, env).0;
    EnsureMeek(h, peer, env, q);
    PutMeek(h1, peer, h'.sessions[peer], q);
    MeekThen(h, h1, h', q);
  }

  /** Key, challenge and permission are as they were. */
  predicate SameAuth(h: Host, h': Host, q: Peer) {
    && (q in h.sessions <==> q in h'.sessions)
    && KeyIn(h', q) == KeyIn(h, q) && AuthIn(h', q) == AuthIn(h, q)
    && (q in h.sessions ==> h'.sessions[q].permission == h.sessions[q].permission)
  }

  lemma SameIsMeek(h: Host, h': Host, q: Peer)
    requires SameAuth(h, h', q)
    ensures Meek(h, h', q) && NotPromoted(h, h', q)
  {
  }

  lemma {:induction false} FlushSame(b: Backend, fates: seq<Fate>, q: Peer)
    ensures SameAuth(b.host, Flush(b, fates).backend.host, q)
    decreases |fates|
  {
    if fates != [] {
      FlushOneSame(b, fates[0], q);
      if FlushOne(b, fates[0]).more {
        FlushSame(FlushOne(b, fates[0]).done.backend, fates[1..], q);
      }
    }
  }

  lemma FlushOneSame(b: Backend, fate: Fate, q: Peer)
    ensures SameAuth(b.host, FlushOne(b, fate).done.backend.host, q)
  {
  }

  lemma ScreeningSame(h: Host, peer: Peer, d: Datagram, q: Peer)
    ensures SameAuth(h, AfterScreening(h, peer, d), q)
  {
  }

  lemma SeenMeek(h: Host, peer: Peer, env: Env, q: Peer)
    ensures Meek(h, Attempted(h, peer, env), q) && NotPromoted(h, Attempted(h, peer, env), q)
    ensures Meek(h, Seen(Attempted(h, peer, env), peer, env), q) && NotPromoted(h, Seen(Attempted(h, peer, env), peer, env), q)
  {
    var h0 := Attempted(h, peer, env);
    EnsureMeek(h0, peer, env, q);
    PutMeek(h0.Ensure(peer, env), peer, Seen(h0, peer, env).sessions[peer], q);
    MeekThen(h0, h0.Ensure(peer, env), Seen(h0, peer, env), q);
    MeekThen(h, h0, Seen(h0, peer, env), q);
  }

  lemma ApprovedMeek(h: Host, peer: Peer, packet: Packet, events: seq<BackendEvent>, setup: Setup, env: Env, q: Peer)
    requires peer in h.sessions
    ensures var h' := RouteApproved(h, peer, packet, events, setup, env).host;
            Meek(h, h', q) && NotPromoted(h, h', q)
  {
    var h' := RouteApproved(h, peer, packet, events, setup, env).host;
    assert h'.sessions == h.sessions || h'.sessions == h.sessions[peer := h'.sessions[peer]];
  }

  // ---------------------------------------------------------------------------------------------
  // Pairing requests and responses
  // ---------------------------------------------------------------------------------------------

  /** How a step that logs `more` may change a session: what it logs of the peer tells the key and the end
      of the challenge, and only an accepted answer, or being let through by the operator or the policy,
      approves it. */
  predicate Recorded(h: Host, h': Host, more: seq<AuthEvent>, q: Peer) {
    && |more| <= 1
    && (more == [] || more[0].peer != q ==> Meek(h, h', q))
    && (more != [] && more[0].peer == q ==>
          && (Decided(h, q) ==> Decided(h', q))
          && q in h'.sessions
          && (more[0].Requested? ==> AuthIn(h', q).None? && KeyIn(h', q) == more[0].key)
          && (more[0].Responded? ==> AuthIn(h', q).None? && AuthIn(h, q) == Some(more[0].challenge) && KeyIn(h', q) == KeyIn(h, q))
          && (more[0].Challenged? ==> AuthIn(h', q) == Some(more[0].challenge) && KeyIn(h', q) == KeyIn(h, q) == Some(more[0].challenge.publicKey)))
  }

  predicate Accepts(more: seq<AuthEvent>, q: Peer) {
    |more| == 1 && more[0].Responded? && more[0].accepted && more[0].peer == q
  }

  /** Under the policy that asks the operator, only an accepted answer approves a session. */
  predicate Authorized(h: Host, h': Host, more: seq<AuthEvent>, setup: Setup, q: Peer) {
    setup.policy == RequireApproval && IsApproved(h', q) && !IsApproved(h, q) ==> Accepts(more, q)
  }

  predicate Told(h: Host, h': Host, more: seq<AuthEvent>, setup: Setup, q: Peer) {
    Recorded(h, h', more, q) && Authorized(h, h', more, setup, q)
  }

  lemma ToldBetween(h: Host, h1: Host, h2: Host, h3: Host, more: seq<AuthEvent>, setup: Setup, q: Peer)
    requires Meek(h, h1, q) && NotPromoted(h, h1, q) && Told(h1, h2, more, setup, q) && SameAuth(h2, h3, q)
    ensures Told(h, h3, more, setup, q)
  {
  }

  lemma PairingTold(h: Host, peer: Peer, body: Body, events: seq<BackendEvent>, setup: Setup, env: Env, q: Peer)
    requires peer in h.sessions && body.PairingRequestBody?
    ensures Told(h, RoutePairing(h, peer, body, events, setup, env).host, [Requested(peer, KeyAsked(body))], setup, q)
  {
    if setup.policy == DevAutoApprove {
      PairedAtOnce(h, peer, body, events, setup, env, q);
    } else {
      PairingAsked(h, peer, body, events, setup, env, q);
    }
  }

  lemma PairedAtOnce(h: Host, peer: Peer, body: Body, events: seq<BackendEvent>, setup: Setup, env: Env, q: Peer)
    requires peer in h.sessions && body.PairingRequestBody? && setup.policy == DevAutoApprove
    ensures Told(h, RoutePairing(h, peer, body, events, setup, env).host, [Requested(peer, KeyAsked(body))], setup, q)
  {
    var key := KeyAsked(body);
    var approved := h.Put(peer, h.sessions[peer].(deviceId := Some(setup.crypto.trustedDevice(key, peer)), deviceKey := key,
                                                  pendingAuth := None, permission := Approved));
    assert RoutePairing(h, peer, body, events, setup, env).host == ExchangeBegun(Advanced(approved), peer, setup, env);
  }

  lemma PairingAsked(h: Host, peer: Peer, body: Body, events: seq<BackendEvent>, setup: Setup, env: Env, q: Peer)
    requires peer in h.sessions && body.PairingRequestBody? && setup.policy != DevAutoApprove
    ensures Told(h, RoutePairing(h, peer, body, events, setup, env).host, [Requested(peer, KeyAsked(body))], setup, q)
  {
    var s := h.sessions[peer].(deviceId := Some(body.deviceName), deviceKey := KeyAsked(body), pendingAuth := None);
    var h1 := h.Put(peer, s);
    if body.proof != [] {
      VerifyMeek(h1, peer, body.proof, setup, env, q);
      VerifyKeeps(h1, peer, body.proof, setup, env);
    }
  }

  lemma VerifyKeeps(h: Host, peer: Peer, proof: seq<byte>, setup: Setup, env: Env)
    requires peer in h.sessions
    ensures var h' := VerifyProof(h, peer, proof, setup, env).0;
            KeyIn(h', peer) == KeyIn(h, peer) && AuthIn(h', peer) == AuthIn(h, peer) && h'.sessions[peer].permission == h.sessions[peer].permission
  {
  }

  lemma AuthTold(h: Host, peer: Peer, body: Body, events: seq<BackendEvent>, setup: Setup, env: Env, q: Peer)
    requires peer in h.sessions && body.AuthResponseBody?
    ensures var h' := RouteAuth(h, peer, body, events, setup, env).host;
            if AuthIn(h, peer).Some?
            then Told(h, h', [Responded(peer, AuthIn(h, peer).value, body, env.ms, AuthFailure(h.sessions[peer], body, setup, env).None?)], setup, q)
            else Told(h, h', [], setup, q)
  {
    var s := h.sessions[peer];
    PutMeek(h, peer, s.(permission := Rejected, pendingAuth := None), q);
    if AuthFailure(s, body, setup, env).None? {
      var approved := h.Put(peer, s.(permission := Approved, deviceId := Some(s.pendingAuth.value.expectedDevice), pendingAuth := None));
      PutMeek(h, peer, approved.sessions[peer], q);
      BegunMeek(approved, peer, setup, env, q);
      MeekThen(h, approved, ExchangeBegun(Advanced(approved), peer, setup, env), q);
    }
  }

  lemma KnownTold(h: Host, peer: Peer, packet: Packet, events: seq<BackendEvent>, setup: Setup, env: Env, q: Peer)
    requires peer in h.sessions
    ensures var h' := RouteKnown(h, peer, packet, events, setup, env).host;
            if packet.messageKind == PairingRequest && packet.payload.PairingRequestBody? then
              Told(h, h', [Requested(peer, KeyAsked(packet.payload))], setup, q)
            else if packet.messageKind == AuthResponse && packet.payload.AuthResponseBody? && AuthIn(h, peer).Some? then
              Told(h, h', [Responded(peer, AuthIn(h, peer).value, packet.payload, env.ms,
                                    AuthFailure(h.sessions[peer], packet.payload, setup, env).None?)], setup, q)
            else Told(h, h', [], setup, q)
  {
    if packet.messageKind == PairingRequest {
      if packet.payload.PairingRequestBody? {
        PairingTold(h, peer, packet.payload, events, setup, env, q);
      }
    } else if packet.messageKind == AuthResponse {
      if packet.payload.AuthResponseBody? {
        AuthTold(h, peer, packet.payload, events, setup, env, q);
      }
    } else {
      RestTold(h, peer, packet, events, setup, env, q);
    }
  }

  lemma RestTold(h: Host, peer: Peer, packet: Packet, events: seq<BackendEvent>, setup: Setup, env: Env, q: Peer)
    requires peer in h.sessions && packet.messageKind != PairingRequest && packet.messageKind != AuthResponse
    ensures Told(h, RouteKnown(h, peer, packet, events, setup, env).host, [], setup, q)
  {
    var s := h.sessions[peer];
    if s.permission == Approved {
      ApprovedMeek(h, peer, packet, events, setup, env, q);
    } else if setup.policy == DevAutoApprove {
      var device := if s.deviceId.Some? then s.deviceId else Some(setup.crypto.devDevice(peer));
      var approved := h.Put(peer, s.(permission := Approved, deviceId := device));
      PutMeek(h, peer, approved.sessions[peer], q);
      ApprovedMeek(approved, peer, packet, events + [PeerAutoApproved(peer)], setup, env, q);
      MeekThen(h, approved, RouteApproved(approved, peer, packet, events + [PeerAutoApproved(peer)], setup, env).host, q);
    }
  }

  lemma RouteTold(h: Host, peer: Peer, packet: Packet, setup: Setup, env: Env, q: Peer)
    ensures Told(h, Route(h, peer, packet, setup, env).host, RouteLog(h, peer, packet, setup, env), setup, q)
  {
    SeenMeek(h, peer, env, q);
    var heard, h' := Heard(h, peer, env), Route(h, peer, packet, setup, env).host;
    if heard.Some? {
      var events := if heard.value.sessions[peer].packetsReceived == 1 then [SessionDiscovered(peer)] else [];
      KnownTold(heard.value, peer, packet, events, setup, env, q);
      ToldBetween(h, heard.value, h', h', RouteLog(h, peer, packet, setup, env), setup, q);
    }
  }

  /** An answer is logged as accepted exactly when it passes. */
  lemma RouteTrue(h: Host, peer: Peer, packet: Packet, setup: Setup, env: Env)
    ensures var more := RouteLog(h, peer, packet, setup, env);
            |more| <= 1 && (more != [] && more[0].Responded? ==>
              (more[0].accepted <==> Passes(more[0].challenge, more[0].response, more[0].ms, setup.crypto)))
  {
  }

  // ---------------------------------------------------------------------------------------------
  // Every step
  // ---------------------------------------------------------------------------------------------

  lemma PollTold(b: Backend, i: PollInput, setup: Setup, q: Peer)
    ensures Told(b.host, Poll(b, i, setup).backend.host, StepLog(b, PollStep(i), setup), setup, q)
  {
    PollPhases(b, i, setup);
    FlushSame(b, i.before, q);
    SameIsMeek(b.host, Screening(b, i), q);
    if Handles(b, i) {
      ScreeningSame(Screening(b, i), i.received.peer, i.received.datagram, q);
      SameIsMeek(b.host, Routing(b, i), q);
      if Routes(b, i) {
        var packet := Screened(Screening(b, i), i.received.peer, i.received.datagram).value;
        RouteTold(Routing(b, i), i.received.peer, packet, setup, i.env, q);
        AfterRoutingSame(b, i, setup, q);
        ToldBetween(b.host, Routing(b, i), RoutedOf(b, i, setup).host, Poll(b, i, setup).backend.host, StepLog(b, PollStep(i), setup), setup, q);
      }
    }
  }

  lemma AfterRoutingSame(b: Backend, i: PollInput, setup: Setup, q: Peer)
    requires Routes(b, i)
    ensures SameAuth(RoutedOf(b, i, setup).host, Poll(b, i, setup).backend.host, q)
  {
    PollPhases(b, i, setup);
    if RoutedOf(b, i, setup).result.Ok? {
      AnsweringKeepsSessions(b, i, setup);
      FlushSame(BeforeLastFlush(b, i, setup), i.after, q);
    }
  }

  lemma ChallengeRecorded(h: Host, peer: Peer, device: Text, permissions: Permissions, env: Env, q: Peer)
    ensures var h', more := ChallengeTrusted(h, peer, device, permissions, env).0, ChallengeLog(h, peer, device, permissions, env);
            Recorded(h, h', more, q) && NotPromoted(h, h', q)
  {
    var h1, h' := h.Ensure(peer, env), ChallengeTrusted(h, peer, device, permissions, env).0;
    EnsureMeek(h, peer, env, q);
    if h1.sessions[peer].deviceKey.None? {
      PutMeek(h1, peer, h'.sessions[peer], q);
      MeekThen(h, h1, h', q);
    } else if q != peer {
      MeekThen(h, h1, h', q);
    }
  }

  /** How a session may come to be approved. */
  predicate Sanctioned(step: Step, more: seq<AuthEvent>, q: Peer) {
    (step.ApproveStep? && step.peer == q) || Accepts(more, q)
  }

  lemma StepRecorded(b: Backend, step: Step, setup: Setup, q: Peer)
    ensures Recorded(b.host, Take(b, step, setup).host, StepLog(b, step, setup), q)
    ensures setup.policy == RequireApproval && IsApproved(Take(b, step, setup).host, q) && !IsApproved(b.host, q) ==>
              Sanctioned(step, StepLog(b, step, setup), q)
  {
    match step {
      case PollStep(i) => PollTold(b, i, setup, q);
      case FlushStep(fates) =>
        FlushSame(b, fates, q);
        SameIsMeek(b.host, Flush(b, fates).backend.host, q);
      case ApproveStep(peer, device, permissions, notify, taken, env) => ApproveMeek(b.host, peer, device, permissions, setup, env, q);
      case RejectStep(peer, env) => RejectMeek(b.host, peer, env, q);
      case ChallengeStep(peer, device, permissions, env) => ChallengeRecorded(b.host, peer, device, permissions, env, q);
      case IssueStep(peer, env) => IssueMeek(b.host, peer, env, q);
      case PermissionsStep(device, permissions) =>
      case MediaStep(packets, video, order) =>
    }
  }

  lemma RecordedAgrees(h: Host, h': Host, more: seq<AuthEvent>, log: seq<AuthEvent>, crypto: Crypto)
    requires Agrees(h, log, crypto)
    requires forall q :: Recorded(h, h', more, q)
    requires more != [] && more[0].Responded? ==> (more[0].accepted <==> Passes(more[0].challenge, more[0].response, more[0].ms, crypto))
    ensures Agrees(h', log + more, crypto)
  {
    assert Recorded(h, h', more, Peer(0, 0));
    if more == [] {
      assert log + [] == log;
    } else {
      var e := more[0];
      assert more == [e];
      assert Recorded(h, h', more, e.peer) && Backed(h, log, e.peer);
      Extends(log, e, crypto);
    }
    forall q
      ensures Backed(h', log + more, q)
    {
      assert Recorded(h, h', more, q) && Backed(h, log, q);
    }
  }

  lemma StepAgrees(b: Backend, step: Step, setup: Setup, log: seq<AuthEvent>)
    requires Agrees(b.host, log, setup.crypto)
    ensures Agrees(Take(b, step, setup).host, log + StepLog(b, step, setup), setup.crypto)
  {
    forall q
      ensures Recorded(b.host, Take(b, step, setup).host, StepLog(b, step, setup), q)
    {
      StepRecorded(b, step, setup, q);
    }
    if step.PollStep? && Routes(b, step.input) {
      var i := step.input;
      RouteTrue(Routing(b, i), i.received.peer, Screened(Screening(b, i), i.received.peer, i.received.datagram).value, setup, i.env);
    }
    RecordedAgrees(b.host, Take(b, step, setup).host, StepLog(b, step, setup), log, setup.crypto);
  }

  lemma {:induction false} RunAgrees(init: Env, steps: seq<Step>, setup: Setup, i: nat)
    requires i <= |steps|
    ensures Agrees(At(init, steps, setup, i).host, AuthLog(init, steps, setup, i), setup.crypto)
  {
    if i > 0 {
      RunAgrees(init, steps, setup, i - 1);
      AtNext(init, steps, setup, i - 1);
      StepAgrees(At(init, steps, setup, i - 1), steps[i - 1], setup, AuthLog(init, steps, setup, i - 1));
    }
  }

  // ---------------------------------------------------------------------------------------------
  // What runs guarantee: approval and challenges
  // ---------------------------------------------------------------------------------------------

  /** Under the policy that asks the operator, in every run a session becomes approved only by an
      approval of that peer, or by its accepted answer in that step. */
  lemma ApprovedBySanction(init: Env, steps: seq<Step>, setup: Setup, n: nat, p: Peer)
    requires setup.policy == RequireApproval && n < |steps|
    requires IsApproved(At(init, steps, setup, n + 1).host, p) && !IsApproved(At(init, steps, setup, n).host, p)
    ensures Sanctioned(steps[n], StepLog(At(init, steps, setup, n), steps[n], setup), p)
  {
    AtNext(init, steps, setup, n);
    StepRecorded(At(init, steps, setup, n), steps[n], setup, p);
  }

  ghost predicate Untouched(log: seq<AuthEvent>, p: Peer, i: nat, j: nat) {
    forall k :: i < k < j && k < |log| ==> log[k].peer != p
  }

  lemma {:induction false} ChallengeOf(log: seq<AuthEvent>, p: Peer) returns (i: nat)
    requires Outstanding(log, p).Some?
    ensures i < |log| && log[i] == Challenged(p, Outstanding(log, p).value) && Untouched(log, p, i, |log|)
  {
    if log[|log| - 1].peer == p {
      i := |log| - 1;
    } else {
      i := ChallengeOf(log[..|log| - 1], p);
    }
  }

  lemma {:induction false} InOrderAt(log: seq<AuthEvent>, crypto: Crypto, j: nat)
    requires AllInOrder(log, crypto) && j < |log|
    ensures InOrder(log[..j], log[j], crypto)
    decreases |log|
  {
    var rest := log[..|log| - 1];
    if j < |rest| {
      InOrderAt(rest, crypto, j);
      assert rest[..j] == log[..j];
    }
  }

  /** In every run, an answer is to a challenge issued to that very peer, with no other answer, challenge
      or pairing request of the peer in between; it is accepted exactly when it passes, so within thirty
      seconds and signed under the key challenged. */
  lemma AnswersChallenge(init: Env, steps: seq<Step>, setup: Setup, n: nat, j: nat) returns (i: nat)
    requires n <= |steps| && j < |AuthLog(init, steps, setup, n)| && AuthLog(init, steps, setup, n)[j].Responded?
    ensures var log := AuthLog(init, steps, setup, n);
            && i < j && log[i] == Challenged(log[j].peer, log[j].challenge)
            && Untouched(log, log[j].peer, i, j)
            && (log[j].accepted <==> Passes(log[j].challenge, log[j].response, log[j].ms, setup.crypto))
  {
    var log := AuthLog(init, steps, setup, n);
    RunAgrees(init, steps, setup, n);
    InOrderAt(log, setup.crypto, j);
    i := ChallengeOf(log[..j], log[j].peer);
    assert forall k :: i < k < j ==> log[..j][k] == log[k];
  }

  /** So, in every run under the policy that asks the operator, a session that becomes approved is approved
      by the operator in that step, or by an answer of that peer, in that step, that passes for a challenge
      issued to it. */
  lemma ApprovedOrProven(init: Env, steps: seq<Step>, setup: Setup, n: nat, p: Peer) returns (i: nat)
    requires setup.policy == RequireApproval && n < |steps|
    requires IsApproved(At(init, steps, setup, n + 1).host, p) && !IsApproved(At(init, steps, setup, n).host, p)
    ensures (steps[n].ApproveStep? && steps[n].peer == p) || ProvenLast(AuthLog(init, steps, setup, n + 1), p, i, setup.crypto)
  {
    ApprovedBySanction(init, steps, setup, n, p);
    i := 0;
    if !(steps[n].ApproveStep? && steps[n].peer == p) {
      var log, more := AuthLog(init, steps, setup, n + 1), StepLog(At(init, steps, setup, n), steps[n], setup);
      assert log == AuthLog(init, steps, setup, n) + more;
      assert log[|log| - 1] == more[0];
      i := AnswersChallenge(init, steps, setup, n + 1, |log| - 1);
    }
  }

  /** The log ends with an answer of that peer that passes for the challenge at `i`. */
  predicate ProvenLast(log: seq<AuthEvent>, p: Peer, i: nat, crypto: Crypto) {
    && i < |log| - 1 && log[|log| - 1].Responded? && log[|log| - 1].peer == p
    && var last := log[|log| - 1];
    && log[i] == Challenged(p, last.challenge) && Passes(last.challenge, last.response, last.ms, crypto)
  }

  /** No challenge is answered twice: two answers have different challenges, the later one's issued after
      the earlier answer of the same peer. */
  lemma AnsweredOnce(init: Env, steps: seq<Step>, setup: Setup, n: nat, j: nat, j': nat) returns (i: nat, i': nat)
    requires n <= |steps| && j < j' < |AuthLog(init, steps, setup, n)|
    requires AuthLog(init, steps, setup, n)[j].Responded? && AuthLog(init, steps, setup, n)[j'].Responded?
    ensures var log := AuthLog(init, steps, setup, n);
            && i < j && i' < j' && i != i'
            && log[i] == Challenged(log[j].peer, log[j].challenge)
            && log[i'] == Challenged(log[j'].peer, log[j'].challenge)
            && (log[j].peer == log[j'].peer ==> j < i')
  {
    i := AnswersChallenge(init, steps, setup, n, j);
    i' := AnswersChallenge(init, steps, setup, n, j');
    AnswersApart(AuthLog(init, steps, setup, n), i, j, i', j');
  }

  lemma AnswersApart(log: seq<AuthEvent>, i: nat, j: nat, i': nat, j': nat)
    requires i < j < j' < |log| && i' < j'
    requires log[i].Challenged? && log[i'].Challenged? && log[j].Responded? && log[j'].Responded?
    requires log[i].peer == log[j].peer && log[i'].peer == log[j'].peer && Untouched(log, log[j'].peer, i', j')
    ensures i != i' && (log[j].peer == log[j'].peer ==> j < i')
  {
    if j > i' {
      assert log[j].peer != log[j'].peer;
    }
  }

  // ---------------------------------------------------------------------------------------------
  // What runs guarantee: keys
  // ---------------------------------------------------------------------------------------------

  /** The backend after these steps from `b`, and what they log. */
  function From(b: Backend, steps: seq<Step>, setup: Setup): Backend {
    if steps == [] then b else Take(From(b, steps[..|steps| - 1], setup), steps[|steps| - 1], setup)
  }

  function LogFrom(b: Backend, steps: seq<Step>, setup: Setup): seq<AuthEvent> {
    if steps == [] then []
    else
      var rest := steps[..|steps| - 1];
      LogFrom(b, rest, setup) + StepLog(From(b, rest, setup), steps[|steps| - 1], setup)
  }

  /** What the steps from `i` on log, up to `j`. */
  function LogBetween(init: Env, steps: seq<Step>, setup: Setup, i: nat, j: nat): seq<AuthEvent>
    requires i <= j <= |steps|
  {
    LogFrom(At(init, steps, setup, i), steps[i..j], setup)
  }

  lemma {:induction false} AfterFrom(init: Env, first: seq<Step>, more: seq<Step>, setup: Setup)
    ensures After(init, first + more, setup) == From(After(init, first, setup), more, setup)
  {
    if more == [] {
      assert first + more == first;
    } else {
      var rest := more[..|more| - 1];
      AfterFrom(init, first, rest, setup);
      assert (first + more)[..|first + more| - 1] == first + rest;
    }
  }

  lemma AtFrom(init: Env, steps: seq<Step>, setup: Setup, i: nat, j: nat)
    requires i <= j <= |steps|
    ensures At(init, steps, setup, j) == From(At(init, steps, setup, i), steps[i..j], setup)
  {
    assert steps[..j] == steps[..i] + steps[i..j];
    AfterFrom(init, steps[..i], steps[i..j], setup);
  }

  lemma KeyStep(h: Host, h': Host, more: seq<AuthEvent>, q: Peer)
    requires Recorded(h, h', more, q) && Decided(h, q)
    ensures Decided(h', q) && KeyIn(h', q) == LastKey(more, q, KeyIn(h, q))
  {
    if more != [] {
      assert more[..0] == [];
      assert LastKey(more, q, KeyIn(h, q)) == if more[0].Requested? && more[0].peer == q then more[0].key else KeyIn(h, q);
    }
  }

  lemma {:induction false} LastKeyAppend(log: seq<AuthEvent>, more: seq<AuthEvent>, p: Peer, otherwise: Option<seq<byte>>)
    ensures LastKey(log + more, p, otherwise) == LastKey(more, p, LastKey(log, p, otherwise))
  {
    if more == [] {
      assert log + more == log;
    } else {
      var rest := more[..|more| - 1];
      LastKeyAppend(log, rest, p, otherwise);
      assert (log + more)[..|log + more| - 1] == log + rest;
    }
  }

  lemma KeyTaken(b: Backend, step: Step, setup: Setup, q: Peer)
    requires Decided(b.host, q)
    ensures Decided(Take(b, step, setup).host, q)
    ensures KeyIn(Take(b, step, setup).host, q) == LastKey(StepLog(b, step, setup), q, KeyIn(b.host, q))
  {
    StepRecorded(b, step, setup, q);
    KeyStep(b.host, Take(b, step, setup).host, StepLog(b, step, setup), q);
  }

  lemma KeysCompose(done: seq<AuthEvent>, more: seq<AuthEvent>, p: Peer, h: Host, h1: Host, h2: Host)
    requires KeyIn(h1, p) == LastKey(done, p, KeyIn(h, p)) && KeyIn(h2, p) == LastKey(more, p, KeyIn(h1, p))
    ensures KeyIn(h2, p) == LastKey(done + more, p, KeyIn(h, p))
  {
    LastKeyAppend(done, more, p, KeyIn(h, p));
  }

  lemma {:induction false} KeyFollows(b: Backend, steps: seq<Step>, setup: Setup, p: Peer)
    requires Decided(b.host, p)
    ensures var h := From(b, steps, setup).host;
            Decided(h, p) && KeyIn(h, p) == LastKey(LogFrom(b, steps, setup), p, KeyIn(b.host, p))
  {
    if steps != [] {
      var rest, last := steps[..|steps| - 1], steps[|steps| - 1];
      var b1 := From(b, rest, setup);
      KeyFollows(b, rest, setup, p);
      KeyTaken(b1, last, setup, p);
      KeysCompose(LogFrom(b, rest, setup), StepLog(b1, last, setup), p, b.host, b1.host, Take(b1, last, setup).host);
    }
  }

  /** A session past pending has, at every later step of every run, the key of its last pairing request
      since, or the key it had. */
  lemma KeyFollowsRequests(init: Env, steps: seq<Step>, setup: Setup, i: nat, j: nat, p: Peer)
    requires i <= j <= |steps| && Decided(At(init, steps, setup, i).host, p)
    ensures Decided(At(init, steps, setup, j).host, p)
    ensures KeyIn(At(init, steps, setup, j).host, p)
            == LastKey(LogBetween(init, steps, setup, i, j), p, KeyIn(At(init, steps, setup, i).host, p))
  {
    AtFrom(init, steps, setup, i, j);
    KeyFollows(At(init, steps, setup, i), steps[i..j], setup, p);
  }

  /** The last pairing request of the peer, if it made one, carried this key. */
  ghost predicate LastRequestCarries(log: seq<AuthEvent>, p: Peer, key: Option<seq<byte>>) {
    forall k :: 0 <= k < |log| && log[k].Requested? && log[k].peer == p ==> log[k].key == key || Superseded(log, p, k)
  }

  /** The peer made a later pairing request. */
  ghost predicate Superseded(log: seq<AuthEvent>, p: Peer, k: nat) {
    exists later :: k < later < |log| && log[later].Requested? && log[later].peer == p
  }

  lemma {:induction false} LastKeyIs(log: seq<AuthEvent>, p: Peer, key: Option<seq<byte>>)
    ensures LastKey(log, p, key) == key <==> LastRequestCarries(log, p, key)
  {
    if log != [] {
      var rest, last := log[..|log| - 1], log[|log| - 1];
      if last.Requested? && last.peer == p {
        forall k | 0 <= k < |log| && log[k].Requested? && log[k].peer == p && log[k].key != last.key
          ensures Superseded(log, p, k)
        {
          assert log[|rest|] == last;
        }
      } else {
        LastKeyIs(rest, p, key);
        RequestsWithout(log, p, key);
      }
    }
  }

  lemma RequestsWithout(log: seq<AuthEvent>, p: Peer, key: Option<seq<byte>>)
    requires log != [] && !(log[|log| - 1].Requested? && log[|log| - 1].peer == p)
    ensures LastRequestCarries(log, p, key) <==> LastRequestCarries(log[..|log| - 1], p, key)
  {
    var rest := log[..|log| - 1];
    forall k | 0 <= k < |rest|
      ensures Superseded(log, p, k) <==> Superseded(rest, p, k)
    {
      SupersededWithout(log, p, k);
    }
    if LastRequestCarries(rest, p, key) {
      forall k | 0 <= k < |log| && log[k].Requested? && log[k].peer == p
        ensures log[k].key == key || Superseded(log, p, k)
      {
        assert rest[k] == log[k];
      }
    }
    if LastRequestCarries(log, p, key) {
      forall k | 0 <= k < |rest| && rest[k].Requested? && rest[k].peer == p
        ensures rest[k].key == key || Superseded(rest, p, k)
      {
        assert rest[k] == log[k];
      }
    }
  }

  lemma SupersededWithout(log: seq<AuthEvent>, p: Peer, k: nat)
    requires k < |log| - 1 && !(log[|log| - 1].Requested? && log[|log| - 1].peer == p)
    ensures Superseded(log, p, k) <==> Superseded(log[..|log| - 1], p, k)
  {
    var rest := log[..|log| - 1];
    if Superseded(log, p, k) {
      var later :| k < later < |log| && log[later].Requested? && log[later].peer == p;
      assert rest[later] == log[later];
    }
    if Superseded(rest, p, k) {
      var later :| k < later < |rest| && rest[later].Requested? && rest[later].peer == p;
      assert log[later] == rest[later];
    }
  }
}
