/**
 Under which key a session is secured, over runs: the one its last pairing request carried, which need
 not be the one the session had when it was approved.
 */
module KeyRuns {
  import opened Bytes
  import opened Wrappers
  import opened Transport
  import opened SessionWire
  import opened Sessions
  import opened Router
  import opened Runtime
  import opened HostRun
  import opened ExchangeRuns
  import opened SecureRuns
  import opened AuthRuns

  // ---------------------------------------------------------------------------------------------
  // Only a confirmation secures a session
  // ---------------------------------------------------------------------------------------------

  predicate KeepsSecure(h: Host, h': Host, q: Peer) {
    q in h'.sessions ==> SameSecure(h, q, h'.sessions[q])
  }

  lemma KeepsSecureThen(h: Host, h1: Host, h2: Host, q: Peer)
    requires KeepsSecure(h, h1, q) && KeepsSecure(h1, h2, q)
    ensures KeepsSecure(h, h2, q)
  {
  }

  lemma BegunKeeps(h: Host, peer: Peer, setup: Setup, env: Env, q: Peer)
    ensures KeepsSecure(h, ExchangeBegun(Advanced(h), peer, setup, env), q)
  {
    EnsureStill(Advanced(h), peer, env, q);
  }

  lemma PairingKeeps(h: Host, peer: Peer, body: Body, events: seq<BackendEvent>, setup: Setup, env: Env, q: Peer)
    requires peer in h.sessions
    ensures KeepsSecure(h, RoutePairing(h, peer, body, events, setup, env).host, q)
  {
    if body.PairingRequestBody? {
      var key := if body.publicKey == [] then None else Some(body.publicKey);
      var s := h.sessions[peer].(deviceId := Some(body.deviceName), deviceKey := key, pendingAuth := None);
      VerifyStill(h.Put(peer, s), peer, body.proof, setup, env, q);
      KeepsSecureThen(h, h.Put(peer, s), VerifyProof(h.Put(peer, s), peer, body.proof, setup, env).0, q);
      var approved := h.Put(peer, s.(permission := Approved, deviceId := Some(setup.crypto.trustedDevice(key, peer))));
      BegunKeeps(approved, peer, setup, env, q);
      KeepsSecureThen(h, approved, ExchangeBegun(Advanced(approved), peer, setup, env), q);
    }
  }

  lemma AuthKeeps(h: Host, peer: Peer, body: Body, events: seq<BackendEvent>, setup: Setup, env: Env, q: Peer)
    requires peer in h.sessions
    ensures KeepsSecure(h, RouteAuth(h, peer, body, events, setup, env).host, q)
  {
    if body.AuthResponseBody? && AuthFailure(h.sessions[peer], body, setup, env).None? {
      var s := h.sessions[peer];
      var approved := h.Put(peer, s.(permission := Approved, deviceId := Some(s.pendingAuth.value.expectedDevice), pendingAuth := None));
      BegunKeeps(approved, peer, setup, env, q);
      KeepsSecureThen(h, approved, ExchangeBegun(Advanced(approved), peer, setup, env), q);
    }
  }

  lemma ApprovedKeeps(h: Host, peer: Peer, packet: Packet, events: seq<BackendEvent>, setup: Setup, env: Env, q: Peer)
    requires peer in h.sessions && packet.messageKind != SessionKeyConfirm
    ensures KeepsSecure(h, RouteApproved(h, peer, packet, events, setup, env).host, q)
  {
    if InputKindOf(packet.messageKind).Some? {
      InputStill(h, peer, packet, InputKindOf(packet.messageKind).value, events, setup, env, q);
    }
  }

  /** The confirmation a session's pending exchange accepts. */
  predicate Confirms(h: Host, peer: Peer, packet: Packet, setup: Setup, env: Env) {
    && packet.messageKind == SessionKeyConfirm && packet.payload.KeyConfirmBody?
    && peer in h.sessions && ConfirmsExchange(h.sessions[peer], packet.payload.confirm, setup, env)
  }

  lemma RouteApprovedKeeps(h: Host, peer: Peer, packet: Packet, events: seq<BackendEvent>, setup: Setup, env: Env, q: Peer)
    requires peer in h.sessions
    ensures KeepsSecure(h, RouteApproved(h, peer, packet, events, setup, env).host, q) || (q == peer && Confirms(h, peer, packet, setup, env))
  {
    if packet.messageKind != SessionKeyConfirm {
      ApprovedKeeps(h, peer, packet, events, setup, env, q);
    }
  }

  lemma KnownKeeps(h: Host, peer: Peer, packet: Packet, events: seq<BackendEvent>, setup: Setup, env: Env, q: Peer)
    requires peer in h.sessions
    requires setup.policy == RequireApproval
    ensures KeepsSecure(h, RouteKnown(h, peer, packet, events, setup, env).host, q)
            || (q == peer && IsApproved(h, peer) && Confirms(h, peer, packet, setup, env))
  {
    PairingKeeps(h, peer, packet.payload, events, setup, env, q);
    AuthKeeps(h, peer, packet.payload, events, setup, env, q);
    RouteApprovedKeeps(h, peer, packet, events, setup, env, q);
  }

  /** Routing secures a session only by a confirmation of its pending exchange, from its peer, approved. */
  lemma RouteSecures(h: Host, peer: Peer, packet: Packet, setup: Setup, env: Env, q: Peer)
    requires setup.policy == RequireApproval
    ensures KeepsSecure(h, Route(h, peer, packet, setup, env).host, q)
            || (q == peer && IsApproved(h, peer) && Confirms(h, peer, packet, setup, env))
  {
    SeenStill(h, peer, env, q);
    if LetIn(h, peer, env) {
      var h1 := Seen(Attempted(h, peer, env), peer, env);
      if h1.sessions[peer].permission != Rejected {
        var events := if h1.sessions[peer].packetsReceived == 1 then [SessionDiscovered(peer)] else [];
        KnownKeeps(h1, peer, packet, events, setup, env, q);
        if KeepsSecure(h1, RouteKnown(h1, peer, packet, events, setup, env).host, q) {
          KeepsSecureThen(h, h1, RouteKnown(h1, peer, packet, events, setup, env).host, q);
        } else {
          ConfirmsSeen(h, peer, packet, setup, env);
        }
      }
    }
  }

  lemma ConfirmsSeen(h: Host, peer: Peer, packet: Packet, setup: Setup, env: Env)
    requires var h1 := Seen(Attempted(h, peer, env), peer, env); Confirms(h1, peer, packet, setup, env) && IsApproved(h1, peer)
    ensures Confirms(h, peer, packet, setup, env) && IsApproved(h, peer)
  {
  }

  // ---------------------------------------------------------------------------------------------
  // Over runs
  // ---------------------------------------------------------------------------------------------

  /** What a poll routes changes a peer's secure session: it gives it one it did not have. */
  predicate Establishes(b: Backend, step: Step, setup: Setup, p: Peer) {
    step.PollStep? && Routes(b, step.input) && !KeepsSecure(Routing(b, step.input), RoutedOf(b, step.input, setup).host, p)
  }

  /** The confirmation that a poll routes for a peer verifies under a key. */
  predicate ConfirmedUnder(b: Backend, i: PollInput, setup: Setup, p: Peer, key: seq<byte>)
    requires Routes(b, i)
  {
    var packet, h := Screened(Screening(b, i), i.received.peer, i.received.datagram).value, Routing(b, i);
    && i.received.peer == p && packet.payload.KeyConfirmBody?
    && p in h.sessions && h.sessions[p].pendingExchange.Some?
    && var offer := h.sessions[p].pendingExchange.value.exchange;
    && setup.crypto.verify(key, ClientSigningPayload(setup.crypto.sha(ServerSigningPayload(offer)), packet.payload.confirm),
                           packet.payload.confirm.signature)
  }

  lemma EstablishedUnderKey(b: Backend, step: Step, setup: Setup, p: Peer)
    requires setup.policy == RequireApproval && Establishes(b, step, setup, p)
    ensures IsApproved(b.host, p) && KeyIn(b.host, p).Some? && ConfirmedUnder(b, step.input, setup, p, KeyIn(b.host, p).value)
  {
    var i := step.input;
    var packet := Screened(Screening(b, i), i.received.peer, i.received.datagram).value;
    RouteSecures(Routing(b, i), i.received.peer, packet, setup, i.env, p);
    FlushSame(b, i.before, p);
    ScreeningSame(Screening(b, i), i.received.peer, i.received.datagram, p);
  }

  // ---------------------------------------------------------------------------------------------
  // Nothing else secures a session
  // ---------------------------------------------------------------------------------------------

  /** A peer has the secure session it had, if it has one: the same id and the same keys. */
  predicate SameIdentity(h: Host, h': Host, q: Peer) {
    IsSecure(h'.sessions, q) ==>
      IsSecure(h.sessions, q) && SecureOf(h', q).sessionId == SecureOf(h, q).sessionId && SecureOf(h', q).ciphers == SecureOf(h, q).ciphers
  }

  /** A step gives a peer a secure session: it had none, or one of another id or with other keys. */
  predicate GivesSession(b: Backend, step: Step, setup: Setup, p: Peer) {
    !SameIdentity(b.host, Take(b, step, setup).host, p)
  }

  lemma IdentityThen(h: Host, h1: Host, h2: Host, q: Peer)
    requires SameIdentity(h, h1, q) && SameIdentity(h1, h2, q)
    ensures SameIdentity(h, h2, q)
  {
  }

  lemma ApproveKeeps(h: Host, peer: Peer, device: Text, permissions: Permissions, setup: Setup, env: Env, q: Peer)
    ensures KeepsSecure(h, Approve(h, peer, device, permissions, env), q)
    ensures KeepsSecure(h, ApproveWithResponse(h, peer, device, permissions, setup, env).0, q)
  {
    var h1 := Approve(h, peer, device, permissions, env);
    EnsureStill(h, peer, env, q);
    BegunKeeps(h1, peer, setup, env, q);
    KeepsSecureThen(h, h1, ExchangeBegun(Advanced(h1), peer, setup, env), q);
  }

  lemma HostStepKeeps(h: Host, step: Step, setup: Setup, q: Peer)
    requires !step.PollStep? && !step.FlushStep? && !step.MediaStep?
    ensures KeepsSecure(h, HostStep(h, step, setup), q)
  {
    match step {
      case ApproveStep(peer, device, permissions, notify, taken, env) => ApproveKeeps(h, peer, device, permissions, setup, env, q);
      case RejectStep(peer, env) => EnsureStill(h, peer, env, q);
      case ChallengeStep(peer, device, permissions, env) => EnsureStill(h, peer, env, q);
      case IssueStep(peer, env) => IssueStill(h, peer, env, q);
      case PermissionsStep(device, permissions) =>
    }
  }

  lemma ScreeningIdentity(h: Host, peer: Peer, d: Datagram, q: Peer)
    ensures SameIdentity(h, AfterScreening(h, peer, d), q)
  {
  }

  lemma PollIdentity(b: Backend, i: PollInput, setup: Setup, q: Peer)
    requires !Establishes(b, PollStep(i), setup, q)
    ensures SameIdentity(b.host, Poll(b, i, setup).backend.host, q)
  {
    PollPhases(b, i, setup);
    FlushKeys(b, i.before, q);
    if Handles(b, i) {
      ScreeningIdentity(Screening(b, i), i.received.peer, i.received.datagram, q);
      IdentityThen(b.host, Screening(b, i), Routing(b, i), q);
      if Routes(b, i) {
        IdentityThen(b.host, Routing(b, i), RoutedOf(b, i, setup).host, q);
        AfterRoutingIdentity(b, i, setup, q);
        IdentityThen(b.host, RoutedOf(b, i, setup).host, Poll(b, i, setup).backend.host, q);
      }
    }
  }

  lemma AfterRoutingIdentity(b: Backend, i: PollInput, setup: Setup, q: Peer)
    requires Routes(b, i)
    ensures SameIdentity(RoutedOf(b, i, setup).host, Poll(b, i, setup).backend.host, q)
  {
    PollPhases(b, i, setup);
    if RoutedOf(b, i, setup).result.Ok? {
      AnsweringKeepsSessions(b, i, setup);
      FlushKeys(BeforeLastFlush(b, i, setup), i.after, q);
    }
  }

  /** Whatever the step, a peer comes to a secure session, or to another one, only by what a poll routes. */
  lemma OnlyRoutingSecures(b: Backend, step: Step, setup: Setup, p: Peer)
    requires GivesSession(b, step, setup, p)
    ensures Establishes(b, step, setup, p)
  {
    match step {
      case PollStep(i) =>
        if !Establishes(b, step, setup, p) {
          PollIdentity(b, i, setup, p);
        }
      case FlushStep(fates) => FlushKeys(b, fates, p);
      case MediaStep(packets, video, order) =>
      case _ => HostStepKeeps(b.host, step, setup, p);
    }
  }

  /** Over every run under the policy that asks the operator, whatever the step: a session is secured, or
      secured anew, only while approved, by a confirmation a poll routes that verifies under the session's
      key then. */
  lemma SecuredByConfirmation(init: Env, steps: seq<Step>, setup: Setup, j: nat, p: Peer)
    requires setup.policy == RequireApproval && j < |steps|
    requires !SameIdentity(At(init, steps, setup, j).host, At(init, steps, setup, j + 1).host, p)
    ensures var b := At(init, steps, setup, j);
            && IsApproved(b.host, p) && KeyIn(b.host, p).Some?
            && steps[j].PollStep? && Routes(b, steps[j].input)
            && ConfirmedUnder(b, steps[j].input, setup, p, KeyIn(b.host, p).value)
  {
    AtNext(init, steps, setup, j);
    OnlyRoutingSecures(At(init, steps, setup, j), steps[j], setup, p);
    EstablishedUnderKey(At(init, steps, setup, j), steps[j], setup, p);
  }

  /** And that key is the one the session had at any earlier moment since it was decided exactly when its
      last pairing request in between, if it made one, carried that key. */
  lemma KeyBinding(init: Env, steps: seq<Step>, setup: Setup, i: nat, j: nat, p: Peer)
    requires setup.policy == RequireApproval && i <= j < |steps|
    requires Decided(At(init, steps, setup, i).host, p) && !SameIdentity(At(init, steps, setup, j).host, At(init, steps, setup, j + 1).host, p)
    ensures var b, approved := At(init, steps, setup, j), KeyIn(At(init, steps, setup, i).host, p);
            && steps[j].PollStep? && Routes(b, steps[j].input) && KeyIn(b.host, p).Some?
            && ConfirmedUnder(b, steps[j].input, setup, p, KeyIn(b.host, p).value)
            && (KeyIn(b.host, p) == approved <==> LastRequestCarries(LogBetween(init, steps, setup, i, j), p, approved))
  {
    SecuredByConfirmation(init, steps, setup, j, p);
    KeyFollowsRequests(init, steps, setup, i, j, p);
    LastKeyIs(LogBetween(init, steps, setup, i, j), p, KeyIn(At(init, steps, setup, i).host, p));
  }
}
