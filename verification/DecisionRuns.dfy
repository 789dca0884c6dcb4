/**
 What decisions do, over runs: a peer the operator rejects, or that fails its challenge, is rejected until
 the operator approves it, and what it sends meanwhile comes to nothing; an approval grants what it names.
 Nothing a peer sends touches another peer's standing.
 */
module DecisionRuns {
  import opened Bytes
  import opened Wrappers
  import opened Transport
  import opened SessionWire
  import opened Sessions
  import opened Router
  import opened Runtime
  import opened HostRun
  import opened AuthRuns
  import PlainRuns
  import InputRuns

  predicate IsRejected(h: Host, q: Peer) {
    q in h.sessions && h.sessions[q].permission == Rejected
  }

  // ---------------------------------------------------------------------------------------------
  // Calls for another peer
  // ---------------------------------------------------------------------------------------------

  /** A session without what a new pairing code voids, and without its channel. */
  function Standing(s: Session): Session {
    s.(pendingPairing := None, secure := None)
  }

  /** The session stands as it did, or was pending and is gone. */
  predicate Aside(h: Host, h': Host, q: Peer) {
    && (q in h'.sessions ==> q in h.sessions && Standing(h'.sessions[q]) == Standing(h.sessions[q]))
    && (Decided(h, q) ==> q in h'.sessions)
  }

  lemma AsideThen(h: Host, h1: Host, h2: Host, q: Peer)
    requires Aside(h, h1, q) && Aside(h1, h2, q)
    ensures Aside(h, h2, q)
  {
  }

  lemma EnsureAside(h: Host, peer: Peer, env: Env, q: Peer)
    requires q != peer || peer in h.sessions
    ensures Aside(h, h.Ensure(peer, env), q)
  {
    if Decided(h, q) {
      OnlyPendingEvicted(h.sessions, peer, env.order, env.instant, env.ms, q);
    }
  }

  lemma BegunAside(h: Host, peer: Peer, setup: Setup, env: Env, q: Peer)
    requires q != peer && peer in h.sessions
    ensures Aside(h, ExchangeBegun(Advanced(h), peer, setup, env), q)
  {
  }

  lemma RotateAside(h: Host, env: Env, q: Peer)
    ensures Aside(h, Rotate(h, env), q) && Aside(h, Unexpired(h, env), q)
  {
  }

  lemma VerifyAside(h: Host, peer: Peer, proof: seq<byte>, setup: Setup, env: Env, q: Peer)
    requires q != peer && peer in h.sessions
    ensures Aside(h, VerifyProof(h, peer, proof, setup, env).0, q)
  {
  }

  lemma ApproveAside(h: Host, peer: Peer, device: Text, permissions: Permissions, setup: Setup, env: Env, q: Peer)
    requires q != peer
    ensures Aside(h, Approve(h, peer, device, permissions, env), q)
    ensures Aside(h, ApproveWithResponse(h, peer, device, permissions, setup, env).0, q)
  {
    EnsureAside(h, peer, env, q);
    BegunAside(Approve(h, peer, device, permissions, env), peer, setup, env, q);
  }

  lemma IssueAside(h: Host, peer: Peer, env: Env, q: Peer)
    requires q != peer
    ensures Aside(h, IssueChallenge(h, peer, env).0, q)
  {
    var h1 := Unexpired(h, env);
    RotateAside(h, env, q);
    EnsureAside(h1, peer, env, q);
    AsideThen(h, h1, h1.Ensure(peer, env), q);
  }

  /** The peer an operator's call is about. */
  function Subject(step: Step): Option<Peer> {
    match step
    case ApproveStep(peer, _, _, _, _, _) => Some(peer)
    case RejectStep(peer, _) => Some(peer)
    case ChallengeStep(peer, _, _, _) => Some(peer)
    case IssueStep(peer, _) => Some(peer)
    case _ => None
  }

  lemma OperatorAside(h: Host, step: Step, setup: Setup, q: Peer)
    requires !step.PollStep? && !step.FlushStep? && !step.MediaStep? && !step.PermissionsStep?
    requires Subject(step) != Some(q)
    ensures Aside(h, HostStep(h, step, setup), q)
  {
    match step {
      case ApproveStep(peer, device, permissions, notify, taken, env) => ApproveAside(h, peer, device, permissions, setup, env, q);
      case RejectStep(peer, env) => EnsureAside(h, peer, env, q);
      case ChallengeStep(peer, device, permissions, env) => EnsureAside(h, peer, env, q);
      case IssueStep(peer, env) => IssueAside(h, peer, env, q);
    }
  }

  lemma SeenAside(h: Host, peer: Peer, env: Env, q: Peer)
    requires q != peer
    ensures Aside(h, Attempted(h, peer, env), q)
    ensures Aside(h, Seen(Attempted(h, peer, env), peer, env), q)
  {
    EnsureAside(Attempted(h, peer, env), peer, env, q);
  }

  lemma PairingAside(h: Host, peer: Peer, body: Body, events: seq<BackendEvent>, setup: Setup, env: Env, q: Peer)
    requires q != peer && peer in h.sessions
    ensures Aside(h, RoutePairing(h, peer, body, events, setup, env).host, q)
  {
    if body.PairingRequestBody? {
      var s := h.sessions[peer].(deviceId := Some(body.deviceName), deviceKey := KeyAsked(body), pendingAuth := None);
      VerifyAside(h.Put(peer, s), peer, body.proof, setup, env, q);
      BegunAside(h.Put(peer, s.(permission := Approved, deviceId := Some(setup.crypto.trustedDevice(KeyAsked(body), peer)))), peer, setup, env, q);
    }
  }

  lemma AuthAside(h: Host, peer: Peer, body: Body, events: seq<BackendEvent>, setup: Setup, env: Env, q: Peer)
    requires q != peer && peer in h.sessions
    ensures Aside(h, RouteAuth(h, peer, body, events, setup, env).host, q)
  {
    var s := h.sessions[peer];
    if s.pendingAuth.Some? {
      BegunAside(h.Put(peer, s.(permission := Approved, deviceId := Some(s.pendingAuth.value.expectedDevice), pendingAuth := None)), peer, setup, env, q);
    }
  }

  lemma ApprovedAside(h: Host, peer: Peer, packet: Packet, events: seq<BackendEvent>, setup: Setup, env: Env, q: Peer)
    requires q != peer && peer in h.sessions
    ensures Aside(h, RouteApproved(h, peer, packet, events, setup, env).host, q)
  {
  }

  lemma KnownAside(h: Host, peer: Peer, packet: Packet, events: seq<BackendEvent>, setup: Setup, env: Env, q: Peer)
    requires q != peer && peer in h.sessions
    ensures Aside(h, RouteKnown(h, peer, packet, events, setup, env).host, q)
  {
    PairingAside(h, peer, packet.payload, events, setup, env, q);
    AuthAside(h, peer, packet.payload, events, setup, env, q);
    ApprovedAside(h, peer, packet, events, setup, env, q);
    var s := h.sessions[peer];
    var approved := h.Put(peer, s.(permission := Approved, deviceId := if s.deviceId.Some? then s.deviceId else Some(setup.crypto.devDevice(peer))));
    ApprovedAside(approved, peer, packet, events + [PeerAutoApproved(peer)], setup, env, q);
    AsideThen(h, approved, RouteApproved(approved, peer, packet, events + [PeerAutoApproved(peer)], setup, env).host, q);
  }

  lemma RouteAside(h: Host, peer: Peer, packet: Packet, setup: Setup, env: Env, q: Peer)
    requires q != peer
    ensures Aside(h, Route(h, peer, packet, setup, env).host, q)
  {
    SeenAside(h, peer, env, q);
    if LetIn(h, peer, env) {
      var h1 := Seen(Attempted(h, peer, env), peer, env);
      var events := if h1.sessions[peer].packetsReceived == 1 then [SessionDiscovered(peer)] else [];
      KnownAside(h1, peer, packet, events, setup, env, q);
      AsideThen(h, h1, RouteKnown(h1, peer, packet, events, setup, env).host, q);
    }
  }

  /** A poll that routes nothing of the peer. */
  lemma PollAside(b: Backend, i: PollInput, setup: Setup, q: Peer)
    requires !(i.received.Arrived? && i.received.peer == q)
    ensures Aside(b.host, Poll(b, i, setup).backend.host, q)
  {
    PollPhases(b, i, setup);
    PlainRuns.FlushSameButCodec(b, i.before, q);
    if Handles(b, i) {
      PlainRuns.RoutingSameButCodec(b, i, q);
      if Routes(b, i) {
        RouteAside(Routing(b, i), i.received.peer, Screened(Screening(b, i), i.received.peer, i.received.datagram).value, setup, i.env, q);
        AsideThen(b.host, Routing(b, i), RoutedOf(b, i, setup).host, q);
        PlainRuns.AfterRoutingHolds(b, i, setup, q);
        AsideThen(b.host, RoutedOf(b, i, setup).host, Poll(b, i, setup).backend.host, q);
      }
    }
  }

  /** A step that is not about the peer: nothing it sent is handled, and no operator's call names it. */
  predicate NotAbout(step: Step, q: Peer) {
    && Subject(step) != Some(q) && !step.PermissionsStep?
    && !(step.PollStep? && step.input.received.Arrived? && step.input.received.peer == q)
  }

  /** Nothing that is not about a peer changes its standing; only a pending session can go. */
  lemma OthersLeaveStanding(b: Backend, step: Step, setup: Setup, q: Peer)
    requires NotAbout(step, q)
    ensures Aside(b.host, Take(b, step, setup).host, q)
  {
    match step {
      case PollStep(i) => PollAside(b, i, setup, q);
      case FlushStep(fates) => PlainRuns.FlushSameButCodec(b, fates, q);
      case MediaStep(packets, video, order) =>
      case _ => OperatorAside(b.host, step, setup, q);
    }
  }

  // ---------------------------------------------------------------------------------------------
  // What a rejected peer sends
  // ---------------------------------------------------------------------------------------------

  /** Only that the peer was heard is recorded. */
  predicate OnlyHeard(h: Host, h': Host, p: Peer) {
    && p in h.sessions && p in h'.sessions
    && var s, s' := h.sessions[p], h'.sessions[p];
    Standing(s').(lastSeen := s.lastSeen, packetsReceived := s.packetsReceived) == Standing(s)
  }

  /** The events a rejected peer may cause. */
  predicate Dismissal(e: BackendEvent, p: Peer) {
    || e.OutboundBackpressure?
    || e == SessionDiscovered(p)
    || e == PacketIgnored(p, PeerRejected)
    || e == PacketIgnored(p, PlaintextAfterSecure) || e == PacketIgnored(p, SecureCheckFailed)
  }

  ghost predicate Dismissals(events: seq<BackendEvent>, p: Peer) {
    forall k :: 0 <= k < |events| ==> Dismissal(events[k], p)
  }

  lemma RejectedRouted(h: Host, p: Peer, packet: Packet, setup: Setup, env: Env)
    requires IsRejected(h, p)
    ensures var r := Route(h, p, packet, setup, env);
            && OnlyHeard(h, r.host, p) && r.input.None?
            && r.result.Ok? && r.result.value.outbound == [] && Dismissals(r.result.value.events, p) && !Secures(r.result.value.events)
  {
    assert Attempted(h, p, env) == h;
  }

  lemma RejectedScreened(h: Host, p: Peer, d: Datagram)
    requires IsRejected(h, p) && Screened(h, p, d).Err?
    ensures Dismissal(PacketIgnored(p, Screened(h, p, d).error), p)
  {
  }

  lemma {:induction false} FlushDismisses(b: Backend, fates: seq<Fate>, p: Peer)
    ensures Dismissals(Flush(b, fates).events, p)
    ensures Flush(b, fates).backend.metrics.queued == b.metrics.queued
    decreases |fates|
  {
    if fates != [] && FlushOne(b, fates[0]).more {
      FlushDismisses(FlushOne(b, fates[0]).done.backend, fates[1..], p);
    }
  }

  lemma DismissedAnswer(b: Backend, p: Peer, packet: Packet, routed: Routed, i: PollInput)
    requires routed.result.Ok? && routed.result.value.outbound == [] && routed.input.None?
    requires Dismissals(routed.result.value.events, p) && !Secures(routed.result.value.events)
    ensures var c := Completed(b, p, packet, routed, i);
            c.input.None? && Dismissals(c.events, p) && c.backend.metrics.queued == b.metrics.queued
  {
    var (b2, events) := Answered(b.(host := routed.host), p, routed.result.value, i.displays, i.env);
    assert events == routed.result.value.events;
    FlushDismisses(b2, i.after, p);
  }

  /** A poll that hears a rejected peer lets nothing through, answers nothing, and reports only that. */
  lemma RejectedPolled(b: Backend, i: PollInput, setup: Setup, p: Peer)
    requires IsRejected(b.host, p) && i.received.Arrived? && i.received.peer == p
    ensures Poll(b, i, setup).input.None? && Dismissals(Poll(b, i, setup).events, p)
    ensures Poll(b, i, setup).backend.metrics.queued == b.metrics.queued
    ensures IsRejected(Poll(b, i, setup).backend.host, p)
  {
    PollPhases(b, i, setup);
    FlushDismisses(b, i.before, p);
    PlainRuns.FlushSameButCodec(b, i.before, p);
    if Handles(b, i) {
      PlainRuns.RoutingSameButCodec(b, i, p);
      if Routes(b, i) {
        var packet := Screened(Screening(b, i), p, i.received.datagram).value;
        RejectedRouted(Routing(b, i), p, packet, setup, i.env);
        PollRoutes(b, i, setup);
        DismissedAnswer(Arriving(b, i), p, packet, RoutedOf(b, i, setup), i);
        PlainRuns.AfterRoutingHolds(b, i, setup, p);
      } else {
        RejectedScreened(Screening(b, i), p, i.received.datagram);
      }
    }
  }

  // ---------------------------------------------------------------------------------------------
  // Rejected until approved
  // ---------------------------------------------------------------------------------------------

  predicate Approves(step: Step, p: Peer) {
    step.ApproveStep? && step.peer == p
  }

  lemma IssueKeepsPermission(h: Host, p: Peer, env: Env)
    requires Decided(h, p)
    ensures p in IssueChallenge(h, p, env).0.sessions && IssueChallenge(h, p, env).0.sessions[p].permission == h.sessions[p].permission
  {
  }

  lemma StaysRejected(b: Backend, step: Step, setup: Setup, p: Peer)
    requires IsRejected(b.host, p) && !Approves(step, p)
    ensures IsRejected(Take(b, step, setup).host, p)
  {
    if NotAbout(step, p) {
      OthersLeaveStanding(b, step, setup, p);
    } else {
      match step {
        case PollStep(i) => RejectedPolled(b, i, setup, p);
        case RejectStep(_, _) =>
        case ChallengeStep(_, _, _, _) =>
        case IssueStep(_, env) => IssueKeepsPermission(b.host, p, env);
        case PermissionsStep(_, _) =>
      }
    }
  }

  /** No step from `i` on, up to `j`, approves the peer. */
  ghost predicate Unapproved(steps: seq<Step>, i: nat, j: nat, p: Peer) {
    forall k :: i <= k < j && k < |steps| ==> !Approves(steps[k], p)
  }

  lemma {:induction false} RejectedFrom(b: Backend, steps: seq<Step>, setup: Setup, p: Peer)
    requires IsRejected(b.host, p) && Unapproved(steps, 0, |steps|, p)
    ensures IsRejected(From(b, steps, setup).host, p)
  {
    if steps != [] {
      RejectedFrom(b, steps[..|steps| - 1], setup, p);
      StaysRejected(From(b, steps[..|steps| - 1], setup), steps[|steps| - 1], setup, p);
    }
  }

  lemma RejectedUntilApproved(init: Env, steps: seq<Step>, setup: Setup, i: nat, j: nat, p: Peer)
    requires i <= j <= |steps| && IsRejected(At(init, steps, setup, i).host, p) && Unapproved(steps, i, j, p)
    ensures IsRejected(At(init, steps, setup, j).host, p)
  {
    AtFrom(init, steps, setup, i, j);
    RejectedFrom(At(init, steps, setup, i), steps[i..j], setup, p);
  }

  /** A step lets nothing of the peer through, and when it hears the peer it answers nothing and reports
      only a dismissal. */
  ghost predicate Shuts(b: Backend, step: Step, setup: Setup, p: Peer) {
    && (InputRuns.InputOf(b, step, setup).Some? ==> InputRuns.InputOf(b, step, setup).value.peer != p)
    && (step.PollStep? && step.input.received.Arrived? && step.input.received.peer == p ==>
          && Dismissals(Poll(b, step.input, setup).events, p)
          && Poll(b, step.input, setup).backend.metrics.queued == b.metrics.queued)
  }

  lemma InputFromSender(b: Backend, i: PollInput, setup: Setup)
    requires Poll(b, i, setup).input.Some?
    ensures i.received.Arrived? && Poll(b, i, setup).input.value.peer == i.received.peer
  {
    PollPhases(b, i, setup);
    InputRuns.InputAuthorized(Routing(b, i), i.received.peer, Screened(Screening(b, i), i.received.peer, i.received.datagram).value, setup, i.env);
  }

  lemma RejectedShut(b: Backend, step: Step, setup: Setup, p: Peer)
    requires IsRejected(b.host, p)
    ensures Shuts(b, step, setup, p)
  {
    if step.PollStep? {
      if step.input.received.Arrived? && step.input.received.peer == p {
        RejectedPolled(b, step.input, setup, p);
      } else if Poll(b, step.input, setup).input.Some? {
        InputFromSender(b, step.input, setup);
      }
    }
  }

  /** Over every run: from the step in which the operator rejects a peer, it is rejected until the operator
      approves it, whatever it sends; nothing of it is let through, answered or reported meanwhile. */
  lemma RejectionHolds(init: Env, steps: seq<Step>, setup: Setup, i: nat, j: nat, p: Peer)
    requires i < j < |steps| && steps[i].RejectStep? && steps[i].peer == p && Unapproved(steps, i + 1, j, p)
    ensures IsRejected(At(init, steps, setup, j).host, p) && Shuts(At(init, steps, setup, j), steps[j], setup, p)
  {
    AtNext(init, steps, setup, i);
    RejectedUntilApproved(init, steps, setup, i + 1, j, p);
    RejectedShut(At(init, steps, setup, j), steps[j], setup, p);
  }

  // ---------------------------------------------------------------------------------------------
  // Answers to a challenge
  // ---------------------------------------------------------------------------------------------

  /** A poll routes an answer of that peer, which is let in and not rejected. */
  predicate HearsAnswer(b: Backend, step: Step, p: Peer, response: Body) {
    && step.PollStep? && Routes(b, step.input) && step.input.received.peer == p
    && var packet := Screened(Screening(b, step.input), p, step.input.received.datagram).value;
    && packet.messageKind == AuthResponse && packet.payload == response && response.AuthResponseBody?
    && LetIn(Routing(b, step.input), p, step.input.env) && !IsRejected(b.host, p)
  }

  predicate AnswerGood(h: Host, p: Peer, response: Body, ms: u64, crypto: Crypto) {
    AuthIn(h, p).Some? && Passes(AuthIn(h, p).value, response, ms, crypto)
  }

  /** Approved as the device challenged, with the permissions it had, and offered a key exchange. */
  predicate Admitted(h: Host, h': Host, p: Peer, id: Bytes16) {
    && IsApproved(h', p) && p in h.sessions && AuthIn(h, p).Some?
    && var s' := h'.sessions[p];
    && s'.deviceId == Some(AuthIn(h, p).value.expectedDevice)
    && s'.permissions == h.sessions[p].permissions
    && s'.pendingExchange.Some? && s'.pendingExchange.value.exchange.sessionId == id
  }

  /** What an answer decides: the peer is admitted when it passes for the challenge it holds, and rejected
      when it does not pass or holds none; either way the challenge is spent. */
  predicate Decides(h: Host, h': Host, p: Peer, response: Body, env: Env, crypto: Crypto) {
    && AuthIn(h', p).None?
    && if AnswerGood(h, p, response, env.ms, crypto) then Admitted(h, h', p, env.sessionId) else IsRejected(h', p)
  }

  lemma AuthDecides(h: Host, p: Peer, body: Body, events: seq<BackendEvent>, setup: Setup, env: Env)
    requires p in h.sessions && body.AuthResponseBody?
    ensures Decides(h, RouteAuth(h, p, body, events, setup, env).host, p, body, env, setup.crypto)
  {
  }

  lemma SeenAuth(h: Host, p: Peer, env: Env)
    ensures var h1 := Seen(Attempted(h, p, env), p, env);
            && AuthIn(h1, p) == AuthIn(h, p) && (IsRejected(h1, p) <==> IsRejected(h, p))
            && (p in h.sessions ==> h1.sessions[p].permissions == h.sessions[p].permissions)
  {
  }

  lemma RouteDecides(h: Host, p: Peer, packet: Packet, setup: Setup, env: Env)
    requires packet.messageKind == AuthResponse && packet.payload.AuthResponseBody? && LetIn(h, p, env) && !IsRejected(h, p)
    ensures Decides(h, Route(h, p, packet, setup, env).host, p, packet.payload, env, setup.crypto)
  {
    var h1 := Seen(Attempted(h, p, env), p, env);
    SeenAuth(h, p, env);
    var events := if h1.sessions[p].packetsReceived == 1 then [SessionDiscovered(p)] else [];
    AuthDecides(h1, p, packet.payload, events, setup, env);
    assert Route(h, p, packet, setup, env) == RouteAuth(h1, p, packet.payload, events, setup, env);
  }

  lemma AnswerDecides(b: Backend, step: Step, setup: Setup, p: Peer, response: Body)
    requires HearsAnswer(b, step, p, response)
    ensures Decides(b.host, Take(b, step, setup).host, p, response, step.input.env, setup.crypto)
  {
    var i := step.input;
    PlainRuns.RoutingSameButCodec(b, i, p);
    RouteDecides(Routing(b, i), p, Screened(Screening(b, i), p, i.received.datagram).value, setup, i.env);
    PlainRuns.AfterRoutingHolds(b, i, setup, p);
  }

  lemma LoggedIsHeard(b: Backend, step: Step, setup: Setup, e: AuthEvent)
    requires StepLog(b, step, setup) == [e] && e.Responded?
    ensures HearsAnswer(b, step, e.peer, e.response) && AuthIn(b.host, e.peer) == Some(e.challenge) && e.ms == step.input.env.ms
  {
    PlainRuns.RoutingSameButCodec(b, step.input, step.input.received.peer);
    SeenAuth(Routing(b, step.input), step.input.received.peer, step.input.env);
  }

  /** Over every run: after an answer that does not pass for its challenge the peer is rejected, until the
      operator approves it, and shut out meanwhile. */
  lemma FailedAnswerRejects(init: Env, steps: seq<Step>, setup: Setup, i: nat, j: nat, e: AuthEvent)
    requires i < j < |steps| && StepLog(At(init, steps, setup, i), steps[i], setup) == [e] && e.Responded?
    requires !Passes(e.challenge, e.response, e.ms, setup.crypto) && Unapproved(steps, i + 1, j, e.peer)
    ensures IsRejected(At(init, steps, setup, j).host, e.peer) && Shuts(At(init, steps, setup, j), steps[j], setup, e.peer)
  {
    LoggedIsHeard(At(init, steps, setup, i), steps[i], setup, e);
    AnswerDecides(At(init, steps, setup, i), steps[i], setup, e.peer, e.response);
    AtNext(init, steps, setup, i);
    RejectedUntilApproved(init, steps, setup, i + 1, j, e.peer);
    RejectedShut(At(init, steps, setup, j), steps[j], setup, e.peer);
  }

  /** Likewise after an answer of a peer that holds no challenge. */
  lemma UnaskedAnswerRejects(init: Env, steps: seq<Step>, setup: Setup, i: nat, j: nat, p: Peer, response: Body)
    requires i < j < |steps| && HearsAnswer(At(init, steps, setup, i), steps[i], p, response)
    requires AuthIn(At(init, steps, setup, i).host, p).None? && Unapproved(steps, i + 1, j, p)
    ensures IsRejected(At(init, steps, setup, j).host, p) && Shuts(At(init, steps, setup, j), steps[j], setup, p)
  {
    AnswerDecides(At(init, steps, setup, i), steps[i], setup, p, response);
    AtNext(init, steps, setup, i);
    RejectedUntilApproved(init, steps, setup, i + 1, j, p);
    RejectedShut(At(init, steps, setup, j), steps[j], setup, p);
  }

  /** And after one that passes the peer is admitted. */
  lemma PassingAnswerAdmits(init: Env, steps: seq<Step>, setup: Setup, i: nat, e: AuthEvent)
    requires i < |steps| && StepLog(At(init, steps, setup, i), steps[i], setup) == [e] && e.Responded?
    requires Passes(e.challenge, e.response, e.ms, setup.crypto)
    ensures Admitted(At(init, steps, setup, i).host, At(init, steps, setup, i + 1).host, e.peer, steps[i].input.env.sessionId)
  {
    LoggedIsHeard(At(init, steps, setup, i), steps[i], setup, e);
    AnswerDecides(At(init, steps, setup, i), steps[i], setup, e.peer, e.response);
    AtNext(init, steps, setup, i);
  }
}
