/**
 When input may still arrive in plain, over runs: a peer that was offered a key exchange is held to sealed
 packets only while the offer is pending, and a confirmation spends the offer whether or not it is good.
 */
module PlainRuns {
  import opened Bytes
  import opened Wrappers
  import opened Transport
  import opened Sessions
  import opened Router
  import opened Runtime
  import opened HostRun
  import opened AuthRuns
  import InputRuns

  predicate Offers(h: Host, q: Peer) {
    q in h.sessions && h.sessions[q].pendingExchange.Some?
  }

  // ---------------------------------------------------------------------------------------------
  // One poll
  // ---------------------------------------------------------------------------------------------

  /** Nothing of a session changes but the counters of its secure channel. */
  predicate SameButCodec(h: Host, h': Host, q: Peer) {
    && (q in h.sessions <==> q in h'.sessions)
    && (q in h.sessions ==>
          && h'.sessions[q].(secure := h.sessions[q].secure) == h.sessions[q]
          && (h'.sessions[q].secure.Some? <==> h.sessions[q].secure.Some?))
  }

  lemma {:induction false} FlushSameButCodec(b: Backend, fates: seq<Fate>, q: Peer)
    ensures SameButCodec(b.host, Flush(b, fates).backend.host, q)
    decreases |fates|
  {
    if fates != [] {
      FlushOneSameButCodec(b, fates[0], q);
      if FlushOne(b, fates[0]).more {
        FlushSameButCodec(FlushOne(b, fates[0]).done.backend, fates[1..], q);
      }
    }
  }

  lemma FlushOneSameButCodec(b: Backend, fate: Fate, q: Peer)
    ensures SameButCodec(b.host, FlushOne(b, fate).done.backend.host, q)
  {
  }

  /** The packet is input of a kind the approved session allows, ahead of its watermark. */
  predicate Acceptable(h: Host, p: Peer, packet: Packet) {
    && IsApproved(h, p) && AllowsInput(h.sessions[p], packet.messageKind)
    && InputKindOf(packet.messageKind).Some?
    && packet.payload.InputBody? && packet.payload.kind == InputKindOf(packet.messageKind).value
    && Advances(h.sessions[p], packet.sequence, packet.payload.timestampUs)
  }

  lemma AcceptableRouted(h: Host, p: Peer, packet: Packet, setup: Setup, env: Env)
    requires Acceptable(h, p, packet)
    ensures Route(h, p, packet, setup, env).input.Some?
  {
    var h1 := Seen(h, p, env);
    assert Attempted(h, p, env) == h;
    var events := if h1.sessions[p].packetsReceived == 1 then [SessionDiscovered(p)] else [];
    assert Route(h, p, packet, setup, env) == RouteKnown(h1, p, packet, events, setup, env);
    assert RouteKnown(h1, p, packet, events, setup, env)
           == RouteInput(h1, p, packet, InputKindOf(packet.messageKind).value, events, setup, env);
  }

  lemma LetThroughByRouting(b: Backend, i: PollInput, setup: Setup)
    ensures Poll(b, i, setup).input.Some? <==> Routes(b, i) && RoutedOf(b, i, setup).input.Some?
  {
    PollPhases(b, i, setup);
  }

  lemma ScreenedInPlain(h: Host, p: Peer, packet: Packet)
    requires IsApproved(h, p) && InputKindOf(packet.messageKind).Some?
    ensures Screened(h, p, Plain(packet)).Ok? <==> !IsSecure(h.sessions, p) && !Offers(h, p)
    ensures Screened(h, p, Plain(packet)).Ok? ==> Screened(h, p, Plain(packet)).value == packet
  {
  }

  lemma AcceptableStill(h: Host, h': Host, p: Peer, packet: Packet)
    requires Acceptable(h, p, packet) && SameButCodec(h, h', p)
    ensures Acceptable(h', p, packet)
    ensures IsSecure(h'.sessions, p) <==> IsSecure(h.sessions, p)
    ensures Offers(h', p) <==> Offers(h, p)
  {
  }

  /** Acceptable input in plain is let through exactly when the peer is not secure and no offer of a key
      exchange to it is pending. */
  lemma PlainInputExactly(b: Backend, i: PollInput, setup: Setup)
    requires Flush(b, i.before).ok && i.received.Arrived? && i.received.datagram.Plain?
    requires Acceptable(b.host, i.received.peer, i.received.datagram.packet)
    ensures Poll(b, i, setup).input.Some? <==> !IsSecure(b.host.sessions, i.received.peer) && !Offers(b.host, i.received.peer)
  {
    var p, packet := i.received.peer, i.received.datagram.packet;
    FlushSameButCodec(b, i.before, p);
    AcceptableStill(b.host, Screening(b, i), p, packet);
    ScreenedInPlain(Screening(b, i), p, packet);
    AcceptableRouted(Screening(b, i), p, packet, setup, i.env);
    LetThroughByRouting(b, i, setup);
  }

  lemma LetThroughApproved(h: Host, p: Peer, packet: Packet, setup: Setup, env: Env)
    requires setup.policy == RequireApproval && Route(h, p, packet, setup, env).input.Some?
    ensures IsApproved(h, p) && InputKindOf(packet.messageKind).Some?
  {
    var h1 := Seen(Attempted(h, p, env), p, env);
    var events := if h1.sessions[p].packetsReceived == 1 then [SessionDiscovered(p)] else [];
    KnownLetsThrough(h1, p, packet, events, setup, env);
  }

  lemma KnownLetsThrough(h: Host, p: Peer, packet: Packet, events: seq<BackendEvent>, setup: Setup, env: Env)
    requires p in h.sessions && setup.policy == RequireApproval
    ensures RouteKnown(h, p, packet, events, setup, env).input.Some? ==> IsApproved(h, p) && InputKindOf(packet.messageKind).Some?
  {
  }

  /** Whatever input is let through under the policy that asks the operator: it came in plain exactly when
      the peer was not secure, and then no offer to it was pending. */
  lemma LetThroughInPlain(b: Backend, i: PollInput, setup: Setup)
    requires setup.policy == RequireApproval && Poll(b, i, setup).input.Some?
    ensures i.received.Arrived?
    ensures i.received.datagram.Plain? <==> !IsSecure(b.host.sessions, i.received.peer)
    ensures i.received.datagram.Plain? ==> !Offers(b.host, i.received.peer)
  {
    LetThroughByRouting(b, i, setup);
    var p := i.received.peer;
    FlushSameButCodec(b, i.before, p);
    LetThroughApproved(Routing(b, i), p, Screened(Screening(b, i), p, i.received.datagram).value, setup, i.env);
  }

  // ---------------------------------------------------------------------------------------------
  // What a step does to an offer
  // ---------------------------------------------------------------------------------------------

  /** Only a session past pending is offered an exchange. */
  predicate Firm(h: Host, q: Peer) {
    Offers(h, q) ==> Decided(h, q)
  }

  /** An offer stays. */
  predicate Holds(h: Host, h': Host, q: Peer) {
    && (Firm(h, q) ==> Firm(h', q))
    && (Offers(h, q) && Decided(h, q) ==> Offers(h', q) && Decided(h', q))
  }

  lemma HoldsThen(h: Host, h1: Host, h2: Host, q: Peer)
    requires Holds(h, h1, q) && Holds(h1, h2, q)
    ensures Holds(h, h2, q)
  {
  }

  lemma EnsureHolds(h: Host, peer: Peer, env: Env, q: Peer)
    ensures Holds(h, h.Ensure(peer, env), q)
  {
    if Decided(h, q) {
      OnlyPendingEvicted(h.sessions, peer, env.order, env.instant, env.ms, q);
    }
  }

  lemma PutHolds(h: Host, peer: Peer, s: Session, q: Peer)
    requires peer in h.sessions && s.pendingExchange == h.sessions[peer].pendingExchange
    requires h.sessions[peer].permission != Pending ==> s.permission != Pending
    ensures Holds(h, h.Put(peer, s), q)
  {
  }

  /** Offering an exchange to a session past pending. */
  lemma BegunHolds(h: Host, peer: Peer, setup: Setup, env: Env, q: Peer)
    requires Decided(h, peer)
    ensures Holds(h, ExchangeBegun(Advanced(h), peer, setup, env), q)
  {
  }

  lemma ApprovedBegunHolds(h: Host, peer: Peer, s: Session, setup: Setup, env: Env, q: Peer)
    requires peer in h.sessions && s.permission == Approved && s.pendingExchange == h.sessions[peer].pendingExchange
    ensures Holds(h, ExchangeBegun(Advanced(h.Put(peer, s)), peer, setup, env), q)
  {
    PutHolds(h, peer, s, q);
    BegunHolds(h.Put(peer, s), peer, setup, env, q);
    HoldsThen(h, h.Put(peer, s), ExchangeBegun(Advanced(h.Put(peer, s)), peer, setup, env), q);
  }

  lemma ApproveHolds(h: Host, peer: Peer, device: Text, permissions: Permissions, setup: Setup, env: Env, q: Peer)
    ensures Holds(h, Approve(h, peer, device, permissions, env), q)
    ensures Holds(h, ApproveWithResponse(h, peer, device, permissions, setup, env).0, q)
  {
    var h1, h2 := h.Ensure(peer, env), Approve(h, peer, device, permissions, env);
    EnsureHolds(h, peer, env, q);
    PutHolds(h1, peer, h2.sessions[peer], q);
    HoldsThen(h, h1, h2, q);
    BegunHolds(h2, peer, setup, env, q);
    HoldsThen(h, h2, ExchangeBegun(Advanced(h2), peer, setup, env), q);
  }

  lemma RotateHolds(h: Host, env: Env, q: Peer)
    ensures Holds(h, Rotate(h, env), q) && Holds(h, Unexpired(h, env), q)
  {
  }

  lemma IssueHolds(h: Host, peer: Peer, env: Env, q: Peer)
    ensures Holds(h, IssueChallenge(h, peer, env).0, q)
  {
    var h1, h2, h' := Unexpired(h, env), Unexpired(h, env).Ensure(peer, env), IssueChallenge(h, peer, env).0;
    RotateHolds(h, env, q);
    EnsureHolds(h1, peer, env, q);
    HoldsThen(h, h1, h2, q);
    PutHolds(h2, peer, h'.sessions[peer], q);
    HoldsThen(h, h2, h', q);
  }

  lemma OperatorHolds(h: Host, step: Step, setup: Setup, q: Peer)
    requires !step.PollStep? && !step.FlushStep? && !step.MediaStep?
    ensures Holds(h, HostStep(h, step, setup), q)
  {
    match step {
      case ApproveStep(peer, device, permissions, notify, taken, env) => ApproveHolds(h, peer, device, permissions, setup, env, q);
      case RejectStep(peer, env) => EnsureHolds(h, peer, env, q);
      case ChallengeStep(peer, device, permissions, env) => EnsureHolds(h, peer, env, q);
      case IssueStep(peer, env) => IssueHolds(h, peer, env, q);
      case PermissionsStep(device, permissions) =>
    }
  }

  lemma VerifyHolds(h: Host, peer: Peer, proof: seq<byte>, setup: Setup, env: Env, q: Peer)
    requires peer in h.sessions
    ensures Holds(h, VerifyProof(h, peer, proof, setup, env).0, q)
  {
    var h', s := VerifyProof(h, peer, proof, setup, env).0, RefreshAttempts(h.sessions[peer], env.ms);
    if VerifyProof(h, peer, proof, setup, env).1.None? {
      var verified := h.Put(peer, s.(codeVerified := true, pendingPairing := None, pairingAttempts := 0));
      assert h' == Rotate(verified, env);
      PutHolds(h, peer, verified.sessions[peer], q);
      RotateHolds(verified, env, q);
      HoldsThen(h, verified, h', q);
    } else {
      assert h' == h.Put(peer, h'.sessions[peer]);
      PutHolds(h, peer, h'.sessions[peer], q);
    }
  }

  lemma PairingHolds(h: Host, peer: Peer, body: Body, events: seq<BackendEvent>, setup: Setup, env: Env, q: Peer)
    requires peer in h.sessions
    ensures Holds(h, RoutePairing(h, peer, body, events, setup, env).host, q)
  {
    if body.PairingRequestBody? {
      var s := h.sessions[peer].(deviceId := Some(body.deviceName), deviceKey := KeyAsked(body), pendingAuth := None);
      PutHolds(h, peer, s, q);
      VerifyHolds(h.Put(peer, s), peer, body.proof, setup, env, q);
      HoldsThen(h, h.Put(peer, s), VerifyProof(h.Put(peer, s), peer, body.proof, setup, env).0, q);
      ApprovedBegunHolds(h, peer, s.(permission := Approved, deviceId := Some(setup.crypto.trustedDevice(KeyAsked(body), peer))), setup, env, q);
    }
  }

  lemma AuthHolds(h: Host, peer: Peer, body: Body, events: seq<BackendEvent>, setup: Setup, env: Env, q: Peer)
    requires peer in h.sessions
    ensures Holds(h, RouteAuth(h, peer, body, events, setup, env).host, q)
  {
    if body.AuthResponseBody? {
      var s := h.sessions[peer];
      PutHolds(h, peer, s.(permission := Rejected, pendingAuth := None), q);
      if s.pendingAuth.Some? {
        ApprovedBegunHolds(h, peer, s.(permission := Approved, deviceId := Some(s.pendingAuth.value.expectedDevice), pendingAuth := None), setup, env, q);
      }
    }
  }

  /** A confirmation, which alone spends an offer. */
  predicate Confirmation(packet: Packet) {
    packet.messageKind == SessionKeyConfirm && packet.payload.KeyConfirmBody?
  }

  lemma ApprovedHolds(h: Host, peer: Peer, packet: Packet, events: seq<BackendEvent>, setup: Setup, env: Env, q: Peer)
    requires peer in h.sessions
    ensures Holds(h, RouteApproved(h, peer, packet, events, setup, env).host, q) || (q == peer && Confirmation(packet))
    ensures Firm(h, q) ==> Firm(RouteApproved(h, peer, packet, events, setup, env).host, q)
  {
    var h' := RouteApproved(h, peer, packet, events, setup, env).host;
    if !Confirmation(packet) {
      assert h'.sessions == h.sessions || h'.sessions == h.sessions[peer := h'.sessions[peer]];
    }
  }

  lemma KnownHolds(h: Host, peer: Peer, packet: Packet, events: seq<BackendEvent>, setup: Setup, env: Env, q: Peer)
    requires peer in h.sessions
    ensures Holds(h, RouteKnown(h, peer, packet, events, setup, env).host, q) || (q == peer && Confirmation(packet))
    ensures Firm(h, q) ==> Firm(RouteKnown(h, peer, packet, events, setup, env).host, q)
  {
    PairingHolds(h, peer, packet.payload, events, setup, env, q);
    AuthHolds(h, peer, packet.payload, events, setup, env, q);
    ApprovedHolds(h, peer, packet, events, setup, env, q);
    if h.sessions[peer].permission != Approved && setup.policy == DevAutoApprove
       && packet.messageKind != PairingRequest && packet.messageKind != AuthResponse {
      AutoApprovedHolds(h, peer, packet, events, setup, env, q);
    }
  }

  lemma AutoApprovedHolds(h: Host, peer: Peer, packet: Packet, events: seq<BackendEvent>, setup: Setup, env: Env, q: Peer)
    requires peer in h.sessions && h.sessions[peer].permission != Approved && setup.policy == DevAutoApprove
    requires packet.messageKind != PairingRequest && packet.messageKind != AuthResponse
    ensures Holds(h, RouteKnown(h, peer, packet, events, setup, env).host, q) || (q == peer && Confirmation(packet))
    ensures Firm(h, q) ==> Firm(RouteKnown(h, peer, packet, events, setup, env).host, q)
  {
    var s := h.sessions[peer];
    var approved := h.Put(peer, s.(permission := Approved, deviceId := if s.deviceId.Some? then s.deviceId else Some(setup.crypto.devDevice(peer))));
    PutHolds(h, peer, approved.sessions[peer], q);
    ApprovedHolds(approved, peer, packet, events + [PeerAutoApproved(peer)], setup, env, q);
    if Holds(approved, RouteApproved(approved, peer, packet, events + [PeerAutoApproved(peer)], setup, env).host, q) {
      HoldsThen(h, approved, RouteApproved(approved, peer, packet, events + [PeerAutoApproved(peer)], setup, env).host, q);
    }
  }

  lemma SeenHolds(h: Host, peer: Peer, env: Env, q: Peer)
    ensures Holds(h, Attempted(h, peer, env), q)
    ensures Holds(h, Seen(Attempted(h, peer, env), peer, env), q)
  {
    var h0 := Attempted(h, peer, env);
    EnsureHolds(h0, peer, env, q);
    PutHolds(h0.Ensure(peer, env), peer, Seen(h0, peer, env).sessions[peer], q);
    HoldsThen(h0, h0.Ensure(peer, env), Seen(h0, peer, env), q);
    HoldsThen(h, h0, Seen(h0, peer, env), q);
  }

  lemma RouteHolds(h: Host, peer: Peer, packet: Packet, setup: Setup, env: Env, q: Peer)
    ensures Holds(h, Route(h, peer, packet, setup, env).host, q) || (q == peer && Confirmation(packet))
    ensures Firm(h, q) ==> Firm(Route(h, peer, packet, setup, env).host, q)
  {
    SeenHolds(h, peer, env, q);
    if LetIn(h, peer, env) {
      var h1 := Seen(Attempted(h, peer, env), peer, env);
      if h1.sessions[peer].permission != Rejected {
        var events := if h1.sessions[peer].packetsReceived == 1 then [SessionDiscovered(peer)] else [];
        KnownHolds(h1, peer, packet, events, setup, env, q);
        if Holds(h1, RouteKnown(h1, peer, packet, events, setup, env).host, q) {
          HoldsThen(h, h1, RouteKnown(h1, peer, packet, events, setup, env).host, q);
        }
      }
    }
  }

  lemma SameHolds(h: Host, h': Host, q: Peer)
    requires SameButCodec(h, h', q)
    ensures Holds(h, h', q)
  {
  }

  lemma ScreeningSameButCodec(h: Host, peer: Peer, d: Datagram, q: Peer)
    ensures SameButCodec(h, AfterScreening(h, peer, d), q)
  {
  }

  // ---------------------------------------------------------------------------------------------
  // Every step
  // ---------------------------------------------------------------------------------------------

  /** A poll routes a confirmation of that peer. */
  predicate RoutesConfirmation(b: Backend, step: Step, p: Peer) {
    && step.PollStep? && Routes(b, step.input) && step.input.received.peer == p
    && Confirmation(Screened(Screening(b, step.input), p, step.input.received.datagram).value)
  }

  lemma PollHolds(b: Backend, i: PollInput, setup: Setup, q: Peer)
    ensures Holds(b.host, Poll(b, i, setup).backend.host, q) || RoutesConfirmation(b, PollStep(i), q)
    ensures Firm(b.host, q) ==> Firm(Poll(b, i, setup).backend.host, q)
  {
    PollPhases(b, i, setup);
    FlushSameButCodec(b, i.before, q);
    if Handles(b, i) {
      ScreeningSameButCodec(Screening(b, i), i.received.peer, i.received.datagram, q);
      HoldsThen(b.host, Screening(b, i), Routing(b, i), q);
      if Routes(b, i) {
        RouteHolds(Routing(b, i), i.received.peer, Screened(Screening(b, i), i.received.peer, i.received.datagram).value, setup, i.env, q);
        AfterRoutingHolds(b, i, setup, q);
        if !RoutesConfirmation(b, PollStep(i), q) {
          HoldsThen(b.host, Routing(b, i), RoutedOf(b, i, setup).host, q);
          HoldsThen(b.host, RoutedOf(b, i, setup).host, Poll(b, i, setup).backend.host, q);
        }
      }
    }
  }

  lemma AfterRoutingHolds(b: Backend, i: PollInput, setup: Setup, q: Peer)
    requires Routes(b, i)
    ensures SameButCodec(RoutedOf(b, i, setup).host, Poll(b, i, setup).backend.host, q)
  {
    PollPhases(b, i, setup);
    if RoutedOf(b, i, setup).result.Ok? {
      AnsweringKeepsSessions(b, i, setup);
      FlushSameButCodec(BeforeLastFlush(b, i, setup), i.after, q);
    }
  }

  lemma StepHolds(b: Backend, step: Step, setup: Setup, q: Peer)
    ensures Holds(b.host, Take(b, step, setup).host, q) || RoutesConfirmation(b, step, q)
    ensures Firm(b.host, q) ==> Firm(Take(b, step, setup).host, q)
  {
    match step {
      case PollStep(i) => PollHolds(b, i, setup, q);
      case FlushStep(fates) =>
        FlushSameButCodec(b, fates, q);
        SameHolds(b.host, Flush(b, fates).backend.host, q);
      case MediaStep(packets, video, order) =>
      case _ => OperatorHolds(b.host, step, setup, q);
    }
  }

  predicate Bare(h: Host, p: Peer) {
    !Offers(h, p) && !IsSecure(h.sessions, p)
  }

  // ---------------------------------------------------------------------------------------------
  // What runs guarantee
  // ---------------------------------------------------------------------------------------------

  function ConfirmationOf(b: Backend, i: PollInput): (r: Body)
    requires Routes(b, i) && Confirmation(Screened(Screening(b, i), i.received.peer, i.received.datagram).value)
    ensures r.KeyConfirmBody?
  {
    Screened(Screening(b, i), i.received.peer, i.received.datagram).value.payload
  }

  /** A poll routes a confirmation of that peer that does not answer the offer its session has. */
  predicate FailsConfirmation(b: Backend, step: Step, setup: Setup, p: Peer) {
    && RoutesConfirmation(b, step, p)
    && var h := Routing(b, step.input);
    && Offers(h, p) && !ConfirmsExchange(h.sessions[p], ConfirmationOf(b, step.input).confirm, setup, step.input.env)
  }

  /** An offer that is gone after a step without the peer being secure was spent on a confirmation that
      failed. */
  lemma SpentInVain(b: Backend, step: Step, setup: Setup, p: Peer)
    requires Firm(b.host, p) && Offers(b.host, p)
    requires Bare(Take(b, step, setup).host, p)
    ensures FailsConfirmation(b, step, setup, p)
  {
    StepHolds(b, step, setup, p);
    RoutingSameButCodec(b, step.input, p);
    if ConfirmsExchange(Routing(b, step.input).sessions[p], ConfirmationOf(b, step.input).confirm, setup, step.input.env) {
      GoodConfirmationKept(b, step.input, setup, p);
    }
  }

  lemma RoutingSameButCodec(b: Backend, i: PollInput, q: Peer)
    requires i.received.Arrived?
    ensures SameButCodec(b.host, Routing(b, i), q)
  {
    FlushSameButCodec(b, i.before, q);
    ScreeningSameButCodec(Screening(b, i), i.received.peer, i.received.datagram, q);
  }

  lemma GoodConfirmationKept(b: Backend, i: PollInput, setup: Setup, p: Peer)
    requires RoutesConfirmation(b, PollStep(i), p) && Decided(b.host, p) && Offers(b.host, p)
    requires p in Routing(b, i).sessions && ConfirmsExchange(Routing(b, i).sessions[p], ConfirmationOf(b, i).confirm, setup, i.env)
    ensures var h' := Poll(b, i, setup).backend.host; Offers(h', p) || IsSecure(h'.sessions, p)
  {
    RoutingSameButCodec(b, i, p);
    GoodConfirmation(Routing(b, i), p, Screened(Screening(b, i), p, i.received.datagram).value, setup, i.env);
    AfterRoutingHolds(b, i, setup, p);
  }

  lemma GoodConfirmation(h: Host, p: Peer, packet: Packet, setup: Setup, env: Env)
    requires Decided(h, p) && Offers(h, p) && Confirmation(packet)
    requires ConfirmsExchange(h.sessions[p], packet.payload.confirm, setup, env)
    ensures var h' := Route(h, p, packet, setup, env).host; Offers(h', p) || IsSecure(h'.sessions, p)
  {
    assert Attempted(h, p, env) == h;
    assert Seen(h, p, env).sessions[p].pendingExchange == h.sessions[p].pendingExchange;
  }

  /** What the run from `b` keeps: offers only to sessions past pending, channels only of those. */
  lemma {:induction false} FromFirm(b: Backend, steps: seq<Step>, setup: Setup, p: Peer)
    requires Firm(b.host, p) && InputRuns.CalmAt(b.host, p)
    ensures Firm(From(b, steps, setup).host, p) && InputRuns.CalmAt(From(b, steps, setup).host, p)
  {
    if steps != [] {
      var rest, last := steps[..|steps| - 1], steps[|steps| - 1];
      FromFirm(b, rest, setup, p);
      StepHolds(From(b, rest, setup), last, setup, p);
      InputRuns.StepTame(From(b, rest, setup), last, setup, p);
    }
  }

  lemma StaysSecure(b: Backend, step: Step, setup: Setup, p: Peer)
    requires InputRuns.CalmAt(b.host, p) && IsSecure(b.host.sessions, p)
    ensures IsSecure(Take(b, step, setup).host.sessions, p)
  {
    InputRuns.StepTame(b, step, setup, p);
  }

  /** The host before every step of a run from `b`, and after the last. */
  function Hosts(b: Backend, steps: seq<Step>, setup: Setup): (r: seq<Host>)
    ensures |r| == |steps| + 1
  {
    seq(|steps| + 1, m requires 0 <= m <= |steps| => From(b, steps[..m], setup).host)
  }

  /** The peer is not secure before it has neither an offer nor a channel, and the last offer it had was
      followed by that state. */
  lemma {:induction false} LastOffer(hosts: seq<Host>, p: Peer) returns (k: nat)
    requires |hosts| > 0 && Offers(hosts[0], p) && Bare(hosts[|hosts| - 1], p)
    requires forall m :: 0 <= m < |hosts| - 1 && Bare(hosts[m + 1], p) ==> !IsSecure(hosts[m].sessions, p)
    ensures k + 1 < |hosts| && Offers(hosts[k], p)
    ensures forall m :: k < m < |hosts| ==> Bare(hosts[m], p)
  {
    var n := |hosts| - 1;
    if Offers(hosts[n - 1], p) {
      k := n - 1;
    } else {
      assert Bare(hosts[n - 1 + 1], p);
      k := LastOffer(hosts[..n], p);
    }
  }

  lemma StepHosts(b: Backend, steps: seq<Step>, setup: Setup, p: Peer, m: nat)
    requires m < |steps| && Firm(b.host, p) && InputRuns.CalmAt(b.host, p)
    ensures Hosts(b, steps, setup)[m + 1] == Take(From(b, steps[..m], setup), steps[m], setup).host
    ensures Firm(Hosts(b, steps, setup)[m], p)
    ensures Bare(Hosts(b, steps, setup)[m + 1], p) ==> !IsSecure(Hosts(b, steps, setup)[m].sessions, p)
  {
    FromFirm(b, steps[..m], setup, p);
    assert steps[..m + 1][..m] == steps[..m];
    if IsSecure(From(b, steps[..m], setup).host.sessions, p) {
      StaysSecure(From(b, steps[..m], setup), steps[m], setup, p);
    }
  }

  lemma OfferSpent(b: Backend, steps: seq<Step>, setup: Setup, p: Peer) returns (k: nat)
    requires Firm(b.host, p) && InputRuns.CalmAt(b.host, p) && Offers(b.host, p)
    requires Bare(From(b, steps, setup).host, p)
    ensures k < |steps| && FailsConfirmation(From(b, steps[..k], setup), steps[k], setup, p)
    ensures forall m :: k < m <= |steps| ==> !Offers(Hosts(b, steps, setup)[m], p)
  {
    k := LastLoss(b, steps, setup, p);
    StepHosts(b, steps, setup, p, k);
    SpentInVain(From(b, steps[..k], setup), steps[k], setup, p);
  }

  lemma LastLoss(b: Backend, steps: seq<Step>, setup: Setup, p: Peer) returns (k: nat)
    requires Firm(b.host, p) && InputRuns.CalmAt(b.host, p) && Offers(b.host, p)
    requires Bare(From(b, steps, setup).host, p)
    ensures k < |steps| && Offers(Hosts(b, steps, setup)[k], p)
    ensures forall m :: k < m <= |steps| ==> Bare(Hosts(b, steps, setup)[m], p)
  {
    var hosts := Hosts(b, steps, setup);
    assert steps[..0] == [] && steps[..|steps|] == steps;
    forall m | 0 <= m < |hosts| - 1 && Bare(hosts[m + 1], p)
      ensures !IsSecure(hosts[m].sessions, p)
    {
      StepHosts(b, steps, setup, p, m);
    }
    k := LastOffer(hosts, p);
  }

  lemma {:induction false} AfterFirm(init: Env, steps: seq<Step>, setup: Setup, p: Peer)
    ensures Firm(After(init, steps, setup).host, p) && InputRuns.CalmAt(After(init, steps, setup).host, p)
  {
    if steps != [] {
      var rest, last := steps[..|steps| - 1], steps[|steps| - 1];
      AfterFirm(init, rest, setup, p);
      StepHolds(After(init, rest, setup), last, setup, p);
      InputRuns.StepTame(After(init, rest, setup), last, setup, p);
    }
  }

  /** A step lets input of that peer through that came in plain. */
  predicate InPlainFrom(b: Backend, step: Step, setup: Setup, p: Peer) {
    && step.PollStep? && Poll(b, step.input, setup).input.Some?
    && step.input.received.Arrived? && step.input.received.peer == p && step.input.received.datagram.Plain?
  }

  lemma InPlainUnoffered(b: Backend, step: Step, setup: Setup, p: Peer)
    requires setup.policy == RequireApproval && InPlainFrom(b, step, setup, p)
    ensures Bare(b.host, p)
  {
    LetThroughInPlain(b, step.input, setup);
  }

  /** Over every run under the policy that asks the operator: when a peer was offered a key exchange after
      the steps `first`, and input of it is let through in plain after the steps `more` that follow them,
      one of those spent its last offer on a confirmation that failed, and nothing was offered since. */
  lemma PlainAfterFailure(init: Env, first: seq<Step>, more: seq<Step>, step: Step, setup: Setup, p: Peer) returns (k: nat)
    requires setup.policy == RequireApproval && Offers(After(init, first, setup).host, p)
    requires InPlainFrom(After(init, first + more, setup), step, setup, p)
    ensures var b := After(init, first, setup);
            && k < |more| && FailsConfirmation(From(b, more[..k], setup), more[k], setup, p)
            && forall m :: k < m <= |more| ==> !Offers(Hosts(b, more, setup)[m], p)
  {
    AfterFirm(init, first, setup, p);
    AfterFrom(init, first, more, setup);
    InPlainUnoffered(After(init, first + more, setup), step, setup, p);
    k := OfferSpent(After(init, first, setup), more, setup, p);
  }
}
