/**
 When a session is secured, over runs: exactly by a confirmation that answers the peer's last offer, is
 signed under its key, and comes within thirty seconds of the step that made the offer.
 */
module ConfirmRuns {
  import opened Bytes
  import opened Wrappers
  import opened Transport
  import opened SessionWire
  import opened SecureChannel
  import opened Sessions
  import opened Router
  import opened Runtime
  import opened HostRun
  import opened ExchangeRuns
  import opened AuthRuns
  import opened KeyRuns
  import opened SecureRuns
  import opened PlainRuns

  function OfferOf(h: Host, q: Peer): Option<PendingExchange> {
    if q in h.sessions then h.sessions[q].pendingExchange else None
  }

  /** The offer is of that moment: what was drawn, for thirty seconds, and signed by the host. */
  predicate MadeAt(offer: PendingExchange, setup: Setup, env: Env) {
    var e := offer.exchange;
    && e.sessionId == env.sessionId && e.salt == env.exchangeSalt && e.ephemeralPublicKeyDer == env.ephemeralPublic
    && offer.ephemeralSecret == env.ephemeralSecret
    && e.expiresAtUnixMs == Min(env.ms + 30_000, U64_MAX)
    && e.hostIdentityPublicKeyDer == setup.crypto.hostKey && e.signature == setup.crypto.sign(ServerSigningPayload(e))
  }

  // ---------------------------------------------------------------------------------------------
  // Where offers come from
  // ---------------------------------------------------------------------------------------------

  /** An offer is the one the peer had, or is made in this call, which is about the peer. */
  predicate Draws(h: Host, h': Host, q: Peer, peer: Peer, setup: Setup, env: Env) {
    OfferOf(h', q).Some? ==> OfferOf(h', q) == OfferOf(h, q) || (q == peer && MadeAt(OfferOf(h', q).value, setup, env))
  }

  lemma StillDraws(h: Host, h1: Host, h2: Host, q: Peer, peer: Peer, setup: Setup, env: Env)
    ensures Still(h, h1, q) ==> Draws(h, h1, q, peer, setup, env)
    ensures Still(h, h1, q) && Draws(h1, h2, q, peer, setup, env) ==> Draws(h, h2, q, peer, setup, env)
  {
  }

  lemma NewMadeAt(setup: Setup, env: Env)
    ensures MadeAt(PendingExchange(NewExchange(setup, env), env.ephemeralSecret), setup, env)
  {
  }

  lemma BegunDraws(h: Host, peer: Peer, setup: Setup, env: Env, q: Peer)
    ensures Draws(h, ExchangeBegun(Advanced(h), peer, setup, env), q, peer, setup, env)
  {
    EnsureStill(Advanced(h), peer, env, q);
    NewMadeAt(setup, env);
  }

  lemma ApproveDraws(h: Host, peer: Peer, device: Text, permissions: Permissions, setup: Setup, env: Env, q: Peer)
    ensures Draws(h, Approve(h, peer, device, permissions, env), q, peer, setup, env)
    ensures Draws(h, ApproveWithResponse(h, peer, device, permissions, setup, env).0, q, peer, setup, env)
  {
    var h1 := Approve(h, peer, device, permissions, env);
    ApproveMoves(h, peer, device, permissions, setup, env, q);
    BegunDraws(h1, peer, setup, env, q);
    StillDraws(h, h1, ExchangeBegun(Advanced(h1), peer, setup, env), q, peer, setup, env);
  }

  /** The peer an offer may be made to in a step, and what the step reads from outside. */
  function EnvOf(step: Step): Option<(Peer, Env)> {
    match step
    case PollStep(i) => if i.received.Arrived? then Some((i.received.peer, i.env)) else None
    case ApproveStep(peer, _, _, _, _, env) => Some((peer, env))
    case _ => None
  }

  /** An offer is the one the peer had, or is made in this step, which is about the peer. */
  predicate StepDraws(h: Host, h': Host, q: Peer, step: Step, setup: Setup) {
    OfferOf(h', q).Some? ==>
      OfferOf(h', q) == OfferOf(h, q) || (EnvOf(step).Some? && EnvOf(step).value.0 == q && MadeAt(OfferOf(h', q).value, setup, EnvOf(step).value.1))
  }

  lemma OperatorDraws(h: Host, step: Step, setup: Setup, q: Peer)
    requires !step.PollStep? && !step.FlushStep? && !step.MediaStep?
    ensures StepDraws(h, HostStep(h, step, setup), q, step, setup)
  {
    match step {
      case ApproveStep(peer, device, permissions, notify, taken, env) => ApproveDraws(h, peer, device, permissions, setup, env, q);
      case RejectStep(peer, env) => EnsureStill(h, peer, env, q);
      case ChallengeStep(peer, device, permissions, env) => EnsureStill(h, peer, env, q);
      case IssueStep(peer, env) => IssueStill(h, peer, env, q);
      case PermissionsStep(device, permissions) =>
    }
  }

  lemma PairingDraws(h: Host, peer: Peer, body: Body, events: seq<BackendEvent>, setup: Setup, env: Env, q: Peer)
    requires peer in h.sessions
    ensures Draws(h, RoutePairing(h, peer, body, events, setup, env).host, q, peer, setup, env)
  {
    if body.PairingRequestBody? {
      var s := h.sessions[peer].(deviceId := Some(body.deviceName), deviceKey := KeyAsked(body), pendingAuth := None);
      VerifyStill(h.Put(peer, s), peer, body.proof, setup, env, q);
      var approved := h.Put(peer, s.(permission := Approved, deviceId := Some(setup.crypto.trustedDevice(KeyAsked(body), peer))));
      BegunDraws(approved, peer, setup, env, q);
      StillDraws(h, approved, ExchangeBegun(Advanced(approved), peer, setup, env), q, peer, setup, env);
    }
  }

  lemma AuthDraws(h: Host, peer: Peer, body: Body, events: seq<BackendEvent>, setup: Setup, env: Env, q: Peer)
    requires peer in h.sessions
    ensures Draws(h, RouteAuth(h, peer, body, events, setup, env).host, q, peer, setup, env)
  {
    var s := h.sessions[peer];
    if s.pendingAuth.Some? {
      var approved := h.Put(peer, s.(permission := Approved, deviceId := Some(s.pendingAuth.value.expectedDevice), pendingAuth := None));
      BegunDraws(approved, peer, setup, env, q);
      StillDraws(h, approved, ExchangeBegun(Advanced(approved), peer, setup, env), q, peer, setup, env);
    }
  }

  lemma ApprovedDraws(h: Host, peer: Peer, packet: Packet, events: seq<BackendEvent>, setup: Setup, env: Env, q: Peer)
    requires peer in h.sessions
    ensures Draws(h, RouteApproved(h, peer, packet, events, setup, env).host, q, peer, setup, env)
  {
    if InputKindOf(packet.messageKind).Some? {
      InputStill(h, peer, packet, InputKindOf(packet.messageKind).value, events, setup, env, q);
    }
  }

  lemma KnownDraws(h: Host, peer: Peer, packet: Packet, events: seq<BackendEvent>, setup: Setup, env: Env, q: Peer)
    requires peer in h.sessions
    ensures Draws(h, RouteKnown(h, peer, packet, events, setup, env).host, q, peer, setup, env)
  {
    PairingDraws(h, peer, packet.payload, events, setup, env, q);
    AuthDraws(h, peer, packet.payload, events, setup, env, q);
    ApprovedDraws(h, peer, packet, events, setup, env, q);
    var s := h.sessions[peer];
    var approved := h.Put(peer, s.(permission := Approved, deviceId := if s.deviceId.Some? then s.deviceId else Some(setup.crypto.devDevice(peer))));
    ApprovedDraws(approved, peer, packet, events + [PeerAutoApproved(peer)], setup, env, q);
    StillDraws(h, approved, RouteApproved(approved, peer, packet, events + [PeerAutoApproved(peer)], setup, env).host, q, peer, setup, env);
  }

  lemma RouteDraws(h: Host, peer: Peer, packet: Packet, setup: Setup, env: Env, q: Peer)
    ensures Draws(h, Route(h, peer, packet, setup, env).host, q, peer, setup, env)
  {
    SeenStill(h, peer, env, q);
    if LetIn(h, peer, env) {
      var h1 := Seen(Attempted(h, peer, env), peer, env);
      if h1.sessions[peer].permission != Rejected {
        var events := if h1.sessions[peer].packetsReceived == 1 then [SessionDiscovered(peer)] else [];
        KnownDraws(h1, peer, packet, events, setup, env, q);
        StillDraws(h, h1, RouteKnown(h1, peer, packet, events, setup, env).host, q, peer, setup, env);
      }
    }
  }

  lemma PollDraws(b: Backend, i: PollInput, setup: Setup, q: Peer)
    ensures StepDraws(b.host, Poll(b, i, setup).backend.host, q, PollStep(i), setup)
  {
    PollPhases(b, i, setup);
    FlushSameButCodec(b, i.before, q);
    if Handles(b, i) {
      RoutingSameButCodec(b, i, q);
      if Routes(b, i) {
        RouteDraws(Routing(b, i), i.received.peer, Screened(Screening(b, i), i.received.peer, i.received.datagram).value, setup, i.env, q);
        AfterRoutingHolds(b, i, setup, q);
      }
    }
  }

  lemma OfferStep(b: Backend, step: Step, setup: Setup, q: Peer)
    ensures StepDraws(b.host, Take(b, step, setup).host, q, step, setup)
  {
    match step {
      case PollStep(i) => PollDraws(b, i, setup, q);
      case FlushStep(fates) => FlushSameButCodec(b, fates, q);
      case MediaStep(packets, video, order) =>
      case _ => OperatorDraws(b.host, step, setup, q);
    }
  }

  // ---------------------------------------------------------------------------------------------
  // The step that made an offer
  // ---------------------------------------------------------------------------------------------

  /** Step `k` of the run made the offer, which has been the peer's ever since. */
  ghost predicate MadeBy(steps: seq<Step>, hosts: seq<Host>, setup: Setup, k: nat, n: nat, p: Peer)
    requires n < |hosts|
  {
    && OfferOf(hosts[n], p).Some?
    && k < n && k < |steps| && EnvOf(steps[k]).Some? && EnvOf(steps[k]).value.0 == p
    && MadeAt(OfferOf(hosts[n], p).value, setup, EnvOf(steps[k]).value.1)
    && forall m :: k < m <= n ==> OfferOf(hosts[m], p) == OfferOf(hosts[n], p)
  }

  lemma {:induction false} LastMade(steps: seq<Step>, hosts: seq<Host>, setup: Setup, n: nat, p: Peer) returns (k: nat)
    requires |hosts| == |steps| + 1 && n < |hosts| && OfferOf(hosts[0], p).None? && OfferOf(hosts[n], p).Some?
    requires forall m :: 0 <= m < n ==> StepDraws(hosts[m], hosts[m + 1], p, steps[m], setup)
    ensures MadeBy(steps, hosts, setup, k, n, p)
  {
    assert StepDraws(hosts[n - 1], hosts[n - 1 + 1], p, steps[n - 1], setup);
    if OfferOf(hosts[n - 1], p) == OfferOf(hosts[n], p) {
      k := LastMade(steps, hosts, setup, n - 1, p);
    } else {
      k := n - 1;
    }
  }

  /** The host before every step of a run, and after the last. */
  function RunHosts(init: Env, steps: seq<Step>, setup: Setup): (r: seq<Host>)
    ensures |r| == |steps| + 1
  {
    Hosts(Start(init), steps, setup)
  }

  lemma {:induction false} FromStart(init: Env, steps: seq<Step>, setup: Setup)
    ensures After(init, steps, setup) == From(Start(init), steps, setup)
  {
    if steps != [] {
      FromStart(init, steps[..|steps| - 1], setup);
    }
  }

  lemma RunHostAt(init: Env, steps: seq<Step>, setup: Setup, m: nat)
    requires m <= |steps|
    ensures RunHosts(init, steps, setup)[m] == At(init, steps, setup, m).host
  {
    FromStart(init, steps[..m], setup);
  }

  lemma HostsDraw(b: Backend, steps: seq<Step>, setup: Setup, m: nat, p: Peer)
    requires m < |steps|
    ensures StepDraws(Hosts(b, steps, setup)[m], Hosts(b, steps, setup)[m + 1], p, steps[m], setup)
  {
    OfferStep(From(b, steps[..m], setup), steps[m], setup, p);
    assert steps[..m + 1][..m] == steps[..m];
  }

  /** Over every run, an offer was made in an earlier step that was about the peer, and has been the peer's
      last ever since. */
  lemma OfferMade(init: Env, steps: seq<Step>, setup: Setup, n: nat, p: Peer) returns (k: nat)
    requires n <= |steps| && OfferOf(RunHosts(init, steps, setup)[n], p).Some?
    ensures MadeBy(steps, RunHosts(init, steps, setup), setup, k, n, p)
  {
    var hosts := RunHosts(init, steps, setup);
    forall m | 0 <= m < n
      ensures StepDraws(hosts[m], hosts[m + 1], p, steps[m], setup)
    {
      HostsDraw(Start(init), steps, setup, m, p);
    }
    k := LastMade(steps, hosts, setup, n, p);
  }

  // ---------------------------------------------------------------------------------------------
  // What a confirmation decides
  // ---------------------------------------------------------------------------------------------

  /** The confirmation is for that offer and that device, in time, signed under the session's key, and key
      agreement succeeds. */
  predicate Answers(s: Session, offer: PendingExchange, c: ClientKeyConfirm, ms: nat, crypto: Crypto) {
    && c.sessionId == offer.exchange.sessionId && s.deviceId == Some(c.deviceId)
    && ms <= offer.exchange.expiresAtUnixMs
    && s.deviceKey.Some?
    && crypto.verify(s.deviceKey.value, ClientSigningPayload(crypto.sha(ServerSigningPayload(offer.exchange)), c), c.signature)
    && crypto.agree(offer.ephemeralSecret, c.ephemeralPublicKeyDer).Some?
  }

  /** The peer is secure under the keys agreed for that offer and that confirmation. */
  predicate SecuredBy(h: Host, p: Peer, offer: PendingExchange, c: ClientKeyConfirm, crypto: Crypto) {
    var e, agreed := offer.exchange, crypto.agree(offer.ephemeralSecret, c.ephemeralPublicKeyDer);
    && IsSecure(h.sessions, p) && agreed.Some?
    && SecureOf(h, p).sessionId == e.sessionId
    && SecureOf(h, p).ciphers == ForHost(agreed.value, Transcript(e, crypto.sha(ServerSigningPayload(e)), c))
    && SecureOf(h, p).codec.aad == AAD_DOMAIN + e.sessionId
  }

  /** How a confirmation leaves the peer. */
  predicate Settles(h: Host, h': Host, p: Peer, c: ClientKeyConfirm, ms: nat, crypto: Crypto) {
    && p in h.sessions && OfferOf(h, p).Some? && OfferOf(h', p).None?
    && if Answers(h.sessions[p], OfferOf(h, p).value, c, ms, crypto) then SecuredBy(h', p, OfferOf(h, p).value, c, crypto)
       else SameIdentity(h, h', p)
  }

  lemma ConfirmSettles(h: Host, p: Peer, c: ClientKeyConfirm, events: seq<BackendEvent>, setup: Setup, env: Env)
    requires p in h.sessions && OfferOf(h, p).Some?
    ensures Settles(h, RouteConfirm(h, p, KeyConfirmBody(c), events, setup, env).host, p, c, env.ms, setup.crypto)
  {
  }

  lemma SeenLeaves(h: Host, p: Peer, env: Env)
    requires p in h.sessions
    ensures var s, s' := h.sessions[p], Seen(h, p, env).sessions[p];
            s'.(lastSeen := s.lastSeen, packetsReceived := s.packetsReceived) == s
  {
  }

  lemma RouteSettles(h: Host, p: Peer, packet: Packet, setup: Setup, env: Env)
    requires IsApproved(h, p) && OfferOf(h, p).Some? && Confirmation(packet)
    ensures Settles(h, Route(h, p, packet, setup, env).host, p, packet.payload.confirm, env.ms, setup.crypto)
  {
    assert Attempted(h, p, env) == h;
    SeenLeaves(h, p, env);
    var h1 := Seen(h, p, env);
    var events := if h1.sessions[p].packetsReceived == 1 then [SessionDiscovered(p)] else [];
    ConfirmSettles(h1, p, packet.payload.confirm, events, setup, env);
    assert Route(h, p, packet, setup, env) == RouteConfirm(h1, p, packet.payload, events, setup, env);
  }

  lemma AfterRoutingKeys(b: Backend, i: PollInput, setup: Setup, q: Peer)
    requires Routes(b, i)
    ensures SameKeys(RoutedOf(b, i, setup).host, Poll(b, i, setup).backend.host, q)
  {
    PollPhases(b, i, setup);
    if RoutedOf(b, i, setup).result.Ok? {
      AnsweringKeepsSessions(b, i, setup);
      FlushKeys(BeforeLastFlush(b, i, setup), i.after, q);
    }
  }

  lemma SettlesBetween(h: Host, h1: Host, h2: Host, h3: Host, p: Peer, c: ClientKeyConfirm, ms: nat, crypto: Crypto)
    requires SameButCodec(h, h1, p) && SameIdentity(h, h1, p) && Settles(h1, h2, p, c, ms, crypto)
    requires SameButCodec(h2, h3, p) && SameKeys(h2, h3, p)
    ensures Settles(h, h3, p, c, ms, crypto)
  {
  }

  lemma RoutingIdentity(b: Backend, i: PollInput, q: Peer)
    requires i.received.Arrived?
    ensures SameIdentity(b.host, Routing(b, i), q)
  {
    FlushKeys(b, i.before, q);
    ScreeningIdentity(Screening(b, i), i.received.peer, i.received.datagram, q);
  }

  /** A confirmation routed for an approved peer with an offer spends the offer; the peer is then secure
      under the keys agreed, if it answers the offer, and keeps the session it had, if any, if not. */
  lemma ConfirmationSettles(b: Backend, step: Step, setup: Setup, p: Peer)
    requires RoutesConfirmation(b, step, p) && IsApproved(b.host, p) && Offers(b.host, p)
    ensures Settles(b.host, Take(b, step, setup).host, p, ConfirmationOf(b, step.input).confirm, step.input.env.ms, setup.crypto)
  {
    var i := step.input;
    var packet := Screened(Screening(b, i), p, i.received.datagram).value;
    RoutingSameButCodec(b, i, p);
    RoutingIdentity(b, i, p);
    RouteSettles(Routing(b, i), p, packet, setup, i.env);
    AfterRoutingHolds(b, i, setup, p);
    AfterRoutingKeys(b, i, setup, p);
    SettlesBetween(b.host, Routing(b, i), RoutedOf(b, i, setup).host, Poll(b, i, setup).backend.host, p, packet.payload.confirm, i.env.ms, setup.crypto);
  }

  lemma EstablishedByConfirmation(b: Backend, step: Step, setup: Setup, p: Peer)
    requires setup.policy == RequireApproval && GivesSession(b, step, setup, p)
    ensures RoutesConfirmation(b, step, p) && IsApproved(b.host, p) && Offers(b.host, p)
  {
    OnlyRoutingSecures(b, step, setup, p);
    var i := step.input;
    RouteSecures(Routing(b, i), i.received.peer, Screened(Screening(b, i), i.received.peer, i.received.datagram).value, setup, i.env, p);
    RoutingSameButCodec(b, i, p);
  }

  // ---------------------------------------------------------------------------------------------
  // Over runs
  // ---------------------------------------------------------------------------------------------

  /** The confirmation comes within thirty seconds of that step. */
  predicate Within30(steps: seq<Step>, k: nat, j: nat) {
    && k < |steps| && j < |steps| && EnvOf(steps[k]).Some? && steps[j].PollStep?
    && steps[j].input.env.ms <= EnvOf(steps[k]).value.1.ms + 30_000
  }

  lemma OfferLasts(steps: seq<Step>, hosts: seq<Host>, setup: Setup, k: nat, j: nat, p: Peer)
    requires j < |steps| && j < |hosts| && MadeBy(steps, hosts, setup, k, j, p) && steps[j].PollStep?
    ensures steps[j].input.env.ms <= OfferOf(hosts[j], p).value.exchange.expiresAtUnixMs <==> Within30(steps, k, j)
  {
  }

  /** Over every run: a confirmation routed for an approved peer with an offer pending secures it exactly
      when it comes within thirty seconds of the step that made the offer, is for the id that step drew and
      for the session's device, is signed under the session's key, and key agreement succeeds. */
  lemma ConfirmedInTime(init: Env, steps: seq<Step>, setup: Setup, j: nat, p: Peer) returns (k: nat)
    requires j < |steps| && RoutesConfirmation(At(init, steps, setup, j), steps[j], p)
    requires IsApproved(At(init, steps, setup, j).host, p) && Offers(At(init, steps, setup, j).host, p)
    ensures var hosts, b := RunHosts(init, steps, setup), At(init, steps, setup, j);
            var c, s, offer := ConfirmationOf(b, steps[j].input).confirm, b.host.sessions[p], OfferOf(b.host, p).value;
            && hosts[j] == b.host && MadeBy(steps, hosts, setup, k, j, p)
            && Settles(b.host, Take(b, steps[j], setup).host, p, c, steps[j].input.env.ms, setup.crypto)
            && (Answers(s, offer, c, steps[j].input.env.ms, setup.crypto) <==>
                  && Within30(steps, k, j) && c.sessionId == EnvOf(steps[k]).value.1.sessionId && s.deviceId == Some(c.deviceId)
                  && s.deviceKey.Some?
                  && setup.crypto.verify(s.deviceKey.value, ClientSigningPayload(setup.crypto.sha(ServerSigningPayload(offer.exchange)), c), c.signature)
                  && setup.crypto.agree(EnvOf(steps[k]).value.1.ephemeralSecret, c.ephemeralPublicKeyDer).Some?)
  {
    RunHostAt(init, steps, setup, j);
    k := OfferMade(init, steps, setup, j, p);
    OfferLasts(steps, RunHosts(init, steps, setup), setup, k, j, p);
    ConfirmationSettles(At(init, steps, setup, j), steps[j], setup, p);
  }

  /** And over every run under the policy that asks the operator, nothing else secures a peer, or secures it
      anew. */
  lemma SecuredInTime(init: Env, steps: seq<Step>, setup: Setup, j: nat, p: Peer) returns (k: nat)
    requires setup.policy == RequireApproval && j < |steps|
    requires GivesSession(At(init, steps, setup, j), steps[j], setup, p)
    ensures var hosts, b := RunHosts(init, steps, setup), At(init, steps, setup, j);
            && hosts[j] == b.host && MadeBy(steps, hosts, setup, k, j, p) && Within30(steps, k, j)
            && RoutesConfirmation(b, steps[j], p) && IsApproved(b.host, p)
            && Answers(b.host.sessions[p], OfferOf(b.host, p).value, ConfirmationOf(b, steps[j].input).confirm, steps[j].input.env.ms, setup.crypto)
  {
    EstablishedByConfirmation(At(init, steps, setup, j), steps[j], setup, p);
    k := ConfirmedInTime(init, steps, setup, j, p);
  }
}
