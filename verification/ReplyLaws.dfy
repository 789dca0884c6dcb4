/**
 What the host answers to answers, confirmations and dev pairings, and what an operator's call sends, stated
 on the packets, the session's fields and the events.
 */
module ReplyLaws {
  import opened Bytes
  import opened Wrappers
  import opened Transport
  import opened Outbound
  import opened SessionWire
  import opened Sessions
  import opened Router
  import opened AuthRuns
  import opened ConfirmRuns
  import opened RouteLaws

  /** The session is approved as that device, and is offered an exchange of this moment. */
  predicate Welcomed(s: Session, s': Session, device: Text, setup: Setup, env: Env) {
    && s'.pendingExchange.Some? && MadeAt(s'.pendingExchange.value, setup, env)
    && s' == s.(permission := Approved, deviceId := Some(device), pendingAuth := None, pendingExchange := s'.pendingExchange)
  }

  /** The packets that tell a peer it is approved as that device, and offer it the exchange its session has. */
  function Welcome(sequence: u64, device: Text, offer: PendingExchange, env: Env): seq<Packet> {
    [HostPacket(sequence, PairingResult, PairingResultBody(true, Some(device)), env),
     HostPacket(Following(sequence), SessionKeyExchange, KeyExchangeBody(offer.exchange), env)]
  }

  function Refusal(sequence: u64, env: Env): Packet {
    HostPacket(sequence, PairingResult, PairingResultBody(false, None), env)
  }

  // ---------------------------------------------------------------------------------------------
  // Answers to a challenge
  // ---------------------------------------------------------------------------------------------

  /** Why an answer does not pass, if it does not: the first of these. */
  function WhyRefused(pending: Option<PendingAuth>, body: Body, ms: nat, crypto: Crypto): Option<Reason>
    requires body.AuthResponseBody?
  {
    if pending.None? then Some(NoPendingChallenge)
    else
      var c := pending.value;
      if body.challengeId != c.challengeId then Some(ChallengeIdMismatch)
      else if body.deviceId != c.expectedDevice then Some(DeviceMismatch)
      else if ms > c.issuedAtMs + 30_000 then Some(ChallengeExpired)
      else if !crypto.verify(c.publicKey, TrustedChallengePayload(c.expectedDevice, c.challengeId, c.nonce), body.signature) then Some(SignatureInvalid)
      else None
  }

  /** An answer that fails rejects the session and is refused; one that passes approves it as the device
      challenged, and is welcomed. */
  lemma AnswerReplied(h: Host, p: Peer, packet: Packet, setup: Setup, env: Env)
    requires p in h.sessions && h.sessions[p].permission != Rejected
    requires packet.messageKind == AuthResponse && packet.payload.AuthResponseBody?
    ensures var r, s := Route(h, p, packet, setup, env), h.sessions[p];
            var why := WhyRefused(s.pendingAuth, packet.payload, env.ms, setup.crypto);
            && p in r.host.sessions && r.input.None?
            && var s' := r.host.sessions[p];
            if why.Some? then
              && s' == Noted(s, env).(permission := Rejected, pendingAuth := None)
              && Gives(h, r, p, s', [PacketIgnored(p, why.value), PairingResultQueued(p, false)], [Refusal(h.nextSequence, env)])
            else
              var device := s.pendingAuth.value.expectedDevice;
              && Welcomed(Noted(s, env), s', device, setup, env)
              && Gives(h, r, p, s', [SessionKeyExchangeQueued(p, env.sessionId), TrustedDeviceAuthenticated(p, device), PairingResultQueued(p, true)],
                       Welcome(h.nextSequence, device, s'.pendingExchange.value, env))
  {
    var h1 := h.Put(p, Noted(h.sessions[p], env));
    KnownRoute(h, p, packet, setup, env);
    AuthReplied(h1, p, packet.payload, First(h.sessions[p], p), setup, env);
    var s' := RouteAuth(h1, p, packet.payload, First(h.sessions[p], p), setup, env).host.sessions[p];
    assert h1.sessions[p := s'] == h.sessions[p := s'];
  }

  lemma AuthReplied(h: Host, p: Peer, body: Body, first: seq<BackendEvent>, setup: Setup, env: Env)
    requires p in h.sessions && body.AuthResponseBody?
    ensures var r, s := RouteAuth(h, p, body, first, setup, env), h.sessions[p];
            var why := WhyRefused(s.pendingAuth, body, env.ms, setup.crypto);
            && p in r.host.sessions && r.input.None?
            && var s' := r.host.sessions[p];
            if why.Some? then
              && s' == s.(permission := Rejected, pendingAuth := None)
              && r == Routed(h.(sessions := h.sessions[p := s'], nextSequence := Following(h.nextSequence)),
                             Ok(Outcome(first + [PacketIgnored(p, why.value), PairingResultQueued(p, false)], [Outgoing(p, Refusal(h.nextSequence, env))])), None)
            else
              var device := s.pendingAuth.value.expectedDevice;
              && Welcomed(s, s', device, setup, env)
              && r.host == h.(sessions := h.sessions[p := s'], nextSequence := Following(Following(h.nextSequence)))
              && r.result == Ok(Outcome(first + [SessionKeyExchangeQueued(p, env.sessionId), TrustedDeviceAuthenticated(p, device), PairingResultQueued(p, true)],
                                        [Outgoing(p, Welcome(h.nextSequence, device, s'.pendingExchange.value, env)[0]),
                                         Outgoing(p, Welcome(h.nextSequence, device, s'.pendingExchange.value, env)[1])]))
  {
    NewMadeAt(setup, env);
    if AuthFailure(h.sessions[p], body, setup, env).None? {
      var s := h.sessions[p].(permission := Approved, deviceId := Some(h.sessions[p].pendingAuth.value.expectedDevice), pendingAuth := None);
      WelcomedBy(h, p, s, setup, env);
    }
  }

  /** Putting an approved session and offering it an exchange. */
  lemma WelcomedBy(h: Host, p: Peer, s: Session, setup: Setup, env: Env)
    requires p in h.sessions
    ensures var h1 := Advanced(h.Put(p, s));
            var s' := s.(pendingExchange := Some(PendingExchange(NewExchange(setup, env), env.ephemeralSecret)));
            && ExchangeBegun(h1, p, setup, env) == h.(sessions := h.sessions[p := s'], nextSequence := Following(Following(h.nextSequence)))
            && ExchangePacket(h1, setup, env) == HostPacket(Following(h.nextSequence), SessionKeyExchange, KeyExchangeBody(NewExchange(setup, env)), env)
  {
    assert h.sessions[p := s][p := s.(pendingExchange := Some(PendingExchange(NewExchange(setup, env), env.ephemeralSecret)))]
           == h.sessions[p := s.(pendingExchange := Some(PendingExchange(NewExchange(setup, env), env.ephemeralSecret)))];
  }

  // ---------------------------------------------------------------------------------------------
  // Confirmations
  // ---------------------------------------------------------------------------------------------

  /** A confirmation that answers the offer is reported as securing the session; any other fails. Either way
      only the session's offer and channel change. */
  lemma ConfirmationReplied(h: Host, p: Peer, packet: Packet, setup: Setup, env: Env)
    requires IsApproved(h, p) && packet.messageKind == SessionKeyConfirm
    ensures var r, s := Route(h, p, packet, setup, env), h.sessions[p];
            if !packet.payload.KeyConfirmBody? then FailsOnly(h, r, p, env)
            else
              && p in r.host.sessions && r.input.None?
              && var s' := r.host.sessions[p];
              if s.pendingExchange.Some? && Answers(s, s.pendingExchange.value, packet.payload.confirm, env.ms, setup.crypto) then
                && s' == Noted(s, env).(pendingExchange := None, secure := s'.secure)
                && Gives(h, r, p, s', [SessionSecured(p, s.pendingExchange.value.exchange.sessionId)], [])
              else r.host == h.Put(p, Noted(s, env).(pendingExchange := None)) && r.result == Err(Protocol)
  {
    KnownRoute(h, p, packet, setup, env);
    if packet.payload.KeyConfirmBody? {
      var h1 := h.Put(p, Noted(h.sessions[p], env));
      var s' := Confirmed(h1.sessions[p], packet.payload.confirm, setup, env);
      assert h1.sessions[p := s'] == h.sessions[p := s'];
    }
  }

  // ---------------------------------------------------------------------------------------------
  // Pairing that approves by itself
  // ---------------------------------------------------------------------------------------------

  lemma DevPairingWelcomes(h: Host, p: Peer, body: Body, first: seq<BackendEvent>, setup: Setup, env: Env)
    requires p in h.sessions && body.PairingRequestBody? && setup.policy == DevAutoApprove
    ensures var r, s := RoutePairing(h, p, body, first, setup, env), h.sessions[p];
            var device := setup.crypto.trustedDevice(KeyAsked(body), p);
            && p in r.host.sessions && r.input.None?
            && var s' := r.host.sessions[p];
            && Welcomed(s.(deviceKey := if body.publicKey == [] then None else Some(body.publicKey)), s', device, setup, env)
            && r.host == h.(sessions := h.sessions[p := s'], nextSequence := Following(Following(h.nextSequence)))
            && r.result == Ok(Outcome(first + [PairingRequested(p, true), PeerAutoApproved(p), SessionKeyExchangeQueued(p, env.sessionId), PairingResultQueued(p, true)],
                                      [Outgoing(p, Welcome(h.nextSequence, device, s'.pendingExchange.value, env)[0]),
                                       Outgoing(p, Welcome(h.nextSequence, device, s'.pendingExchange.value, env)[1])]))
  {
    NewMadeAt(setup, env);
    var key := KeyAsked(body);
    WelcomedBy(h, p, h.sessions[p].(deviceKey := key, pendingAuth := None, permission := Approved, deviceId := Some(setup.crypto.trustedDevice(key, p))),
               setup, env);
  }

  // ---------------------------------------------------------------------------------------------
  // Operator's calls
  // ---------------------------------------------------------------------------------------------

  /** What an approval of a known peer does and sends. */
  lemma ApprovalWelcomes(h: Host, p: Peer, device: Text, permissions: Permissions, setup: Setup, env: Env)
    requires p in h.sessions
    ensures var (h', packets) := ApproveWithResponse(h, p, device, permissions, setup, env);
            && p in h'.sessions && h'.sessions[p].pendingExchange.Some?
            && var s' := h'.sessions[p];
            && MadeAt(s'.pendingExchange.value, setup, env)
            && s' == h.sessions[p].(permission := Approved, deviceId := Some(device), permissions := permissions, pendingExchange := s'.pendingExchange)
            && h' == h.(sessions := h.sessions[p := s'], nextSequence := Following(Following(h.nextSequence)))
            && packets == Welcome(h.nextSequence, device, s'.pendingExchange.value, env)
  {
    NewMadeAt(setup, env);
    WelcomedBy(h, p, h.sessions[p].(permission := Approved, deviceId := Some(device), permissions := permissions), setup, env);
  }

  /** What a rejection of a known peer does and sends. */
  lemma RejectionRefuses(h: Host, p: Peer, env: Env)
    requires p in h.sessions
    ensures RejectWithResponse(h, p, env)
            == (h.(sessions := h.sessions[p := h.sessions[p].(permission := Rejected)], nextSequence := Following(h.nextSequence)),
                Refusal(h.nextSequence, env))
  {
  }

  /** What a challenge of a known peer does and sends: the id, nonce and time sent are those held, for the
      device named and the key on record. */
  lemma ChallengeHeld(h: Host, p: Peer, device: Text, permissions: Permissions, env: Env)
    requires p in h.sessions
    ensures var (h', packet) := ChallengeTrusted(h, p, device, permissions, env);
            var s := h.sessions[p];
            if s.deviceKey.None? then packet == None && h' == h.(sessions := h.sessions[p := s.(permissions := permissions)])
            else
              && packet == Some(HostPacket(h.nextSequence, AuthChallenge, AuthChallengeBody(env.challengeId, env.nonce, env.ms), env))
              && h' == h.(sessions := h.sessions[p := s.(permissions := permissions,
                                                         pendingAuth := Some(PendingAuth(env.challengeId, env.nonce, env.ms, device, s.deviceKey.value)))],
                          nextSequence := Following(h.nextSequence))
  {
  }
}
