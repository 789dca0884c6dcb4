/**
 What routing does with each kind of packet, stated on the session's fields, the events reported and the
 packets answered. Whatever else routing touches is said to stay.
 */
module RouteLaws {
  import opened Bytes
  import opened Wrappers
  import opened Transport
  import opened Outbound
  import opened Sessions
  import opened Router
  import opened AuthRuns
  import InputRuns

  /** The session once it was heard. */
  function Noted(s: Session, env: Env): Session {
    s.(lastSeen := env.instant, packetsReceived := s.packetsReceived + 1)
  }

  /** The first packet of a session is reported. */
  function First(s: Session, p: Peer): seq<BackendEvent> {
    if s.packetsReceived == 0 then [SessionDiscovered(p)] else []
  }

  /** A control packet of the host. */
  function HostPacket(sequence: u64, kind: MessageKind, body: Body, env: Env): Packet {
    TransportPacket(sequence, Control, kind, env.us, body)
  }

  function Following(n: u64): u64 {
    (n + 1) % TWO_TO_THE_64
  }

  /** Routing leaves this session, reports these events and answers these packets; `used` sequence numbers
      are spent; all else stays. */
  predicate Gives(h: Host, r: Routed, p: Peer, s': Session, events: seq<BackendEvent>, answers: seq<Packet>) {
    && p in h.sessions
    && r.host.sessions == h.sessions[p := s']
    && r.host.attempts == h.attempts && r.host.code == h.code && r.host.codeExpiresMs == h.codeExpiresMs
    && r.host.nextSequence == (if |answers| == 0 then h.nextSequence else if |answers| == 1 then Following(h.nextSequence)
                               else Following(Following(h.nextSequence)))
    && r.result.Ok? && r.result.value.events == First(h.sessions[p], p) + events
    && r.result.value.outbound == seq(|answers|, k requires 0 <= k < |answers| => Outgoing(p, answers[k]))
  }

  /** Routing fails, and records only that the peer was heard. */
  predicate FailsOnly(h: Host, r: Routed, p: Peer, env: Env) {
    p in h.sessions && r.host == h.Put(p, Noted(h.sessions[p], env)) && r.result == Err(Protocol) && r.input.None?
  }

  lemma KnownRoute(h: Host, p: Peer, packet: Packet, setup: Setup, env: Env)
    requires p in h.sessions && h.sessions[p].permission != Rejected
    ensures Route(h, p, packet, setup, env)
            == RouteKnown(h.Put(p, Noted(h.sessions[p], env)), p, packet, First(h.sessions[p], p), setup, env)
  {
    assert Attempted(h, p, env) == h;
    assert h.Ensure(p, env) == h;
  }

  // ---------------------------------------------------------------------------------------------
  // Packets of an approved peer
  // ---------------------------------------------------------------------------------------------

  /** A ping is answered with its own number and time, and the host's time. */
  lemma PingAnswered(h: Host, p: Peer, packet: Packet, setup: Setup, env: Env)
    requires IsApproved(h, p) && packet.messageKind == LatencyPing
    ensures var r := Route(h, p, packet, setup, env);
            if packet.payload.LatencyPingBody? then
              r.input.None? && Gives(h, r, p, Noted(h.sessions[p], env), [LatencyPongQueued(p)],
                                     [HostPacket(h.nextSequence, LatencyPong, LatencyPongBody(packet.payload.sequence, packet.payload.clientSendUs, env.us), env)])
            else FailsOnly(h, r, p, env)
  {
    KnownRoute(h, p, packet, setup, env);
  }

  /** A configuration is kept as sent. */
  lemma ConfigKept(h: Host, p: Peer, packet: Packet, setup: Setup, env: Env)
    requires IsApproved(h, p) && packet.messageKind == EncoderConfig
    ensures var r := Route(h, p, packet, setup, env);
            if packet.payload.EncoderConfigBody? then
              r.input.None? && Gives(h, r, p, Noted(h.sessions[p], env).(encoder := Some(packet.payload.settings)), [EncoderConfigUpdated(p)], [])
            else FailsOnly(h, r, p, env)
  {
    KnownRoute(h, p, packet, setup, env);
  }

  /** The kinds that carry input. */
  predicate CarriesInput(kind: MessageKind, k: InputKind) {
    || (kind == StylusInputBatch && k == Pen) || (kind == TouchInputBatch && k == Touch)
    || (kind == KeyboardInput && k == Keyboard) || (kind == MouseInput && k == Mouse) || (kind == GamepadInput && k == Gamepad)
  }

  /** Input the session is not allowed is refused, whatever it holds. */
  lemma ForbiddenInput(h: Host, p: Peer, packet: Packet, k: InputKind, setup: Setup, env: Env)
    requires IsApproved(h, p) && CarriesInput(packet.messageKind, k) && !InputRuns.Permits(h.sessions[p].permissions, k)
    ensures var r := Route(h, p, packet, setup, env);
            r.input.None? && Gives(h, r, p, Noted(h.sessions[p], env), [PacketIgnored(p, DeniedByPermissions)], [])
  {
    KnownRoute(h, p, packet, setup, env);
  }

  /** Ahead of the last input: a greater sequence, and no smaller timestamp. */
  predicate IsAhead(s: Session, packet: Packet)
    requires packet.payload.InputBody?
  {
    s.watermark.None? || (packet.sequence > s.watermark.value.sequence && packet.payload.timestampUs >= s.watermark.value.timestampUs)
  }

  /** Allowed input that is not ahead is late. */
  lemma LateInputIgnored(h: Host, p: Peer, packet: Packet, k: InputKind, setup: Setup, env: Env)
    requires IsApproved(h, p) && CarriesInput(packet.messageKind, k) && InputRuns.Permits(h.sessions[p].permissions, k)
    requires packet.payload.InputBody? && packet.payload.kind == k && !IsAhead(h.sessions[p], packet)
    ensures var r := Route(h, p, packet, setup, env);
            r.input.None? && Gives(h, r, p, Noted(h.sessions[p], env), [PacketIgnored(p, LateInput)], [])
  {
    KnownRoute(h, p, packet, setup, env);
  }

  /** Allowed input that is ahead is let through and moves the watermark; it is injected where there is a
      bridge, and reported unless that fails. */
  lemma InputLetThrough(h: Host, p: Peer, packet: Packet, k: InputKind, setup: Setup, env: Env)
    requires IsApproved(h, p) && CarriesInput(packet.messageKind, k) && InputRuns.Permits(h.sessions[p].permissions, k)
    requires packet.payload.InputBody? && packet.payload.kind == k && IsAhead(h.sessions[p], packet)
    ensures var r, mark := Route(h, p, packet, setup, env), Watermark(packet.sequence, packet.payload.timestampUs);
            var s' := Noted(h.sessions[p], env).(watermark := Some(mark));
            && r.input == Some(AcceptedInput(p, k, mark, Noted(h.sessions[p], env)))
            && if k in setup.bridges && !env.injects then r.host == h.Put(p, s') && r.result == Err(InputFailed)
               else Gives(h, r, p, s', if k !in setup.bridges then [InputDecoded(p, k)]
                                       else if k == Pen then [InputInjected(p, k)] else [InputDecoded(p, k), InputInjected(p, k)], [])
  {
    KnownRoute(h, p, packet, setup, env);
  }

  /** Allowed input whose body does not decode, or is of another kind, fails. */
  lemma MalformedInput(h: Host, p: Peer, packet: Packet, k: InputKind, setup: Setup, env: Env)
    requires IsApproved(h, p) && CarriesInput(packet.messageKind, k) && InputRuns.Permits(h.sessions[p].permissions, k)
    requires !(packet.payload.InputBody? && packet.payload.kind == k)
    ensures FailsOnly(h, Route(h, p, packet, setup, env), p, env)
  {
    KnownRoute(h, p, packet, setup, env);
  }

  /** None of the kinds that do something. */
  predicate OtherKind(kind: MessageKind) {
    && kind !in {PairingRequest, AuthResponse, SessionKeyConfirm, LatencyPing, EncoderConfig}
    && kind !in {StylusInputBatch, TouchInputBatch, KeyboardInput, MouseInput, GamepadInput}
  }

  /** Other packets of an approved peer are only reported. */
  lemma OthersReported(h: Host, p: Peer, packet: Packet, setup: Setup, env: Env)
    requires IsApproved(h, p) && OtherKind(packet.messageKind)
    ensures var r := Route(h, p, packet, setup, env);
            r.input.None? && Gives(h, r, p, Noted(h.sessions[p], env), [PacketRouted(p)], [])
  {
    KnownRoute(h, p, packet, setup, env);
  }

  // ---------------------------------------------------------------------------------------------
  // Packets of a pending peer
  // ---------------------------------------------------------------------------------------------

  /** A peer that waits for the operator is told nothing, and nothing it sends is looked at but pairing
      requests and answers to challenges. */
  lemma PendingWaits(h: Host, p: Peer, packet: Packet, setup: Setup, env: Env)
    requires p in h.sessions && h.sessions[p].permission == Pending && setup.policy == RequireApproval
    requires packet.messageKind !in {PairingRequest, AuthResponse}
    ensures var r := Route(h, p, packet, setup, env);
            r.input.None? && Gives(h, r, p, Noted(h.sessions[p], env), [PermissionRequired(p)], [])
  {
    KnownRoute(h, p, packet, setup, env);
  }

  /** Under the policy that approves by itself, the packet approves its peer, under its own name or one of
      its address, and is routed as an approved peer's. */
  lemma PendingApprovedAtOnce(h: Host, p: Peer, packet: Packet, setup: Setup, env: Env)
    requires p in h.sessions && h.sessions[p].permission == Pending && setup.policy == DevAutoApprove
    requires OtherKind(packet.messageKind)
    ensures var r, s := Route(h, p, packet, setup, env), h.sessions[p];
            var device := if s.deviceId.Some? then s.deviceId else Some(setup.crypto.devDevice(p));
            r.input.None? && Gives(h, r, p, Noted(s, env).(permission := Approved, deviceId := device), [PeerAutoApproved(p), PacketRouted(p)], [])
  {
    KnownRoute(h, p, packet, setup, env);
    var h1, s := h.Put(p, Noted(h.sessions[p], env)), h.sessions[p];
    var s' := Noted(s, env).(permission := Approved, deviceId := if s.deviceId.Some? then s.deviceId else Some(setup.crypto.devDevice(p)));
    var first := First(s, p);
    assert RouteKnown(h1, p, packet, first, setup, env) == RouteApproved(h1.Put(p, s'), p, packet, first + [PeerAutoApproved(p)], setup, env);
    assert (first + [PeerAutoApproved(p)]) + [PacketRouted(p)] == first + [PeerAutoApproved(p), PacketRouted(p)];
    assert h1.Put(p, s').sessions == h.sessions[p := s'];
  }

  // ---------------------------------------------------------------------------------------------
  // Unknown peers
  // ---------------------------------------------------------------------------------------------

  /** An unknown peer whose address made twelve attempts in the last ten seconds is turned away, without a
      session. */
  lemma UnknownTurnedAway(h: Host, p: Peer, packet: Packet, setup: Setup, env: Env)
    requires p !in h.sessions && !Admits(AttemptsOf(h.attempts, p.ip), env.instant)
    ensures var r := Route(h, p, packet, setup, env);
            && r.host.sessions == h.sessions && r.input.None?
            && r.result == Ok(Outcome([PendingRateLimited(p), PacketIgnored(p, RateLimited)], []))
  {
  }

  /** An unknown peer that is let in gets a session of its own: pending, heard once, with all permissions
      and nothing else; any other packet than a pairing request or an answer then waits. */
  lemma UnknownWaits(h: Host, p: Peer, packet: Packet, setup: Setup, env: Env)
    requires p !in h.sessions && Admits(AttemptsOf(h.attempts, p.ip), env.instant) && setup.policy == RequireApproval
    requires packet.messageKind !in {PairingRequest, AuthResponse}
    ensures var r := Route(h, p, packet, setup, env);
            && p in r.host.sessions
            && r.host.sessions[p] == Session(None, None, None, None, 0, env.ms, false, None, None, Pending,
                                             Permissions(true, true, true, true, true), 1, env.instant, None, None)
            && r.result == Ok(Outcome([SessionDiscovered(p), PermissionRequired(p)], [])) && r.input.None?
  {
    var h0 := Attempted(h, p, env);
    var h1, s' := Seen(h0, p, env), Noted(NewSession(env.instant, env.ms), env);
    assert h0.Ensure(p, env).sessions[p] == NewSession(env.instant, env.ms);
    assert h1.sessions[p] == s';
    assert Route(h, p, packet, setup, env) == RouteKnown(h1, p, packet, [SessionDiscovered(p)], setup, env);
    assert [SessionDiscovered(p)] + [PermissionRequired(p)] == [SessionDiscovered(p), PermissionRequired(p)];
  }
}
