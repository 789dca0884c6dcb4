/** What a peer is permitted, over runs: what the last operator's call that named it, or its device, granted. */
module GrantRuns {
  import opened Bytes
  import opened Wrappers
  import opened Transport
  import opened Sessions
  import opened Router
  import opened Runtime
  import opened HostRun
  import opened AuthRuns
  import opened PlainRuns
  import InputRuns

  function Granted(h: Host, q: Peer): Option<Permissions> {
    if q in h.sessions then Some(h.sessions[q].permissions) else None
  }

  predicate Same(h: Host, h': Host, q: Peer) {
    Granted(h', q) == Granted(h, q)
  }

  /** A session keeps its permissions, or is a new one, with all of them. */
  predicate Lasts(h: Host, h': Host, q: Peer) {
    q in h'.sessions ==> Granted(h', q) == if q in h.sessions then Granted(h, q) else Some(Permissions(true, true, true, true, true))
  }

  lemma EnsureLasts(h: Host, peer: Peer, env: Env, q: Peer)
    ensures Lasts(h, h.Ensure(peer, env), q)
  {
  }

  lemma BegunSame(h: Host, peer: Peer, setup: Setup, env: Env, q: Peer)
    requires peer in h.sessions
    ensures Same(h, ExchangeBegun(Advanced(h), peer, setup, env), q)
  {
  }

  lemma RotateSame(h: Host, env: Env, q: Peer)
    ensures Same(h, Rotate(h, env), q) && Same(h, Unexpired(h, env), q)
  {
  }

  lemma VerifySame(h: Host, peer: Peer, proof: seq<byte>, setup: Setup, env: Env, q: Peer)
    requires peer in h.sessions
    ensures Same(h, VerifyProof(h, peer, proof, setup, env).0, q)
  {
  }

  lemma SeenLasts(h: Host, peer: Peer, env: Env, q: Peer)
    ensures Lasts(h, Attempted(h, peer, env), q)
    ensures Lasts(h, Seen(Attempted(h, peer, env), peer, env), q)
  {
    EnsureLasts(Attempted(h, peer, env), peer, env, q);
  }

  lemma PairingSame(h: Host, peer: Peer, body: Body, events: seq<BackendEvent>, setup: Setup, env: Env, q: Peer)
    requires peer in h.sessions
    ensures Same(h, RoutePairing(h, peer, body, events, setup, env).host, q)
  {
    if body.PairingRequestBody? {
      var s := h.sessions[peer].(deviceId := Some(body.deviceName), deviceKey := KeyAsked(body), pendingAuth := None);
      VerifySame(h.Put(peer, s), peer, body.proof, setup, env, q);
      BegunSame(h.Put(peer, s.(permission := Approved, deviceId := Some(setup.crypto.trustedDevice(KeyAsked(body), peer)))), peer, setup, env, q);
    }
  }

  lemma AuthSame(h: Host, peer: Peer, body: Body, events: seq<BackendEvent>, setup: Setup, env: Env, q: Peer)
    requires peer in h.sessions
    ensures Same(h, RouteAuth(h, peer, body, events, setup, env).host, q)
  {
    var s := h.sessions[peer];
    if s.pendingAuth.Some? {
      BegunSame(h.Put(peer, s.(permission := Approved, deviceId := Some(s.pendingAuth.value.expectedDevice), pendingAuth := None)), peer, setup, env, q);
    }
  }

  lemma ApprovedSame(h: Host, peer: Peer, packet: Packet, events: seq<BackendEvent>, setup: Setup, env: Env, q: Peer)
    requires peer in h.sessions
    ensures Same(h, RouteApproved(h, peer, packet, events, setup, env).host, q)
  {
  }

  lemma KnownSame(h: Host, peer: Peer, packet: Packet, events: seq<BackendEvent>, setup: Setup, env: Env, q: Peer)
    requires peer in h.sessions
    ensures Same(h, RouteKnown(h, peer, packet, events, setup, env).host, q)
  {
    PairingSame(h, peer, packet.payload, events, setup, env, q);
    AuthSame(h, peer, packet.payload, events, setup, env, q);
    ApprovedSame(h, peer, packet, events, setup, env, q);
    var s := h.sessions[peer];
    ApprovedSame(h.Put(peer, s.(permission := Approved, deviceId := if s.deviceId.Some? then s.deviceId else Some(setup.crypto.devDevice(peer)))),
                 peer, packet, events + [PeerAutoApproved(peer)], setup, env, q);
  }

  lemma RouteLasts(h: Host, peer: Peer, packet: Packet, setup: Setup, env: Env, q: Peer)
    ensures Lasts(h, Route(h, peer, packet, setup, env).host, q)
  {
    SeenLasts(h, peer, env, q);
    if LetIn(h, peer, env) {
      var h1 := Seen(Attempted(h, peer, env), peer, env);
      var events := if h1.sessions[peer].packetsReceived == 1 then [SessionDiscovered(peer)] else [];
      KnownSame(h1, peer, packet, events, setup, env, q);
    }
  }

  lemma PollLasts(b: Backend, i: PollInput, setup: Setup, q: Peer)
    ensures Lasts(b.host, Poll(b, i, setup).backend.host, q)
  {
    PollPhases(b, i, setup);
    FlushSameButCodec(b, i.before, q);
    if Handles(b, i) {
      RoutingSameButCodec(b, i, q);
      if Routes(b, i) {
        RouteLasts(Routing(b, i), i.received.peer, Screened(Screening(b, i), i.received.peer, i.received.datagram).value, setup, i.env, q);
        AfterRoutingHolds(b, i, setup, q);
      }
    }
  }

  // ---------------------------------------------------------------------------------------------
  // Every step
  // ---------------------------------------------------------------------------------------------

  /** What a step grants a peer: an approval or a challenge of it, or new permissions for its device. */
  function GrantOf(h: Host, step: Step, q: Peer): Option<Permissions> {
    match step
    case ApproveStep(peer, _, permissions, _, _, _) => if peer == q then Some(permissions) else None
    case ChallengeStep(peer, _, permissions, _) => if peer == q then Some(permissions) else None
    case PermissionsStep(device, permissions) =>
      if q in h.sessions && h.sessions[q].deviceId == Some(device) then Some(permissions) else None
    case _ => None
  }

  lemma ApproveGrants(h: Host, peer: Peer, device: Text, permissions: Permissions, notify: bool, setup: Setup, env: Env, q: Peer)
    ensures var h' := if notify then ApproveWithResponse(h, peer, device, permissions, setup, env).0 else Approve(h, peer, device, permissions, env);
            if q == peer then Granted(h', q) == Some(permissions) else Lasts(h, h', q)
  {
    EnsureLasts(h, peer, env, q);
    BegunSame(Approve(h, peer, device, permissions, env), peer, setup, env, q);
  }

  lemma IssueLasts(h: Host, peer: Peer, env: Env, q: Peer)
    ensures Lasts(h, IssueChallenge(h, peer, env).0, q)
  {
    RotateSame(h, env, q);
    EnsureLasts(Unexpired(h, env), peer, env, q);
  }

  /** After any step a session has what the step grants it, what it had, or, when new, all permissions. */
  lemma StepGrants(b: Backend, step: Step, setup: Setup, q: Peer)
    requires q in Take(b, step, setup).host.sessions
    ensures Granted(Take(b, step, setup).host, q)
            == if GrantOf(b.host, step, q).Some? then GrantOf(b.host, step, q)
               else if q in b.host.sessions then Granted(b.host, q)
               else Some(Permissions(true, true, true, true, true))
  {
    match step {
      case PollStep(i) => PollLasts(b, i, setup, q);
      case FlushStep(fates) => FlushSameButCodec(b, fates, q);
      case MediaStep(packets, video, order) =>
      case ApproveStep(peer, device, permissions, notify, taken, env) => ApproveGrants(b.host, peer, device, permissions, notify, setup, env, q);
      case RejectStep(peer, env) => EnsureLasts(b.host, peer, env, q);
      case ChallengeStep(peer, device, permissions, env) => EnsureLasts(b.host, peer, env, q);
      case IssueStep(peer, env) => IssueLasts(b.host, peer, env, q);
      case PermissionsStep(device, permissions) =>
    }
  }

  // ---------------------------------------------------------------------------------------------
  // Over runs
  // ---------------------------------------------------------------------------------------------

  /** What the last of these steps that grants the peer something grants it. */
  function LastGrant(b: Backend, steps: seq<Step>, setup: Setup, q: Peer, otherwise: Permissions): Permissions {
    if steps == [] then otherwise
    else
      var rest, last := steps[..|steps| - 1], steps[|steps| - 1];
      match GrantOf(From(b, rest, setup).host, last, q)
      case Some(granted) => granted
      case None => LastGrant(b, rest, setup, q, otherwise)
  }

  lemma GrantKept(b: Backend, step: Step, setup: Setup, q: Peer)
    requires Decided(b.host, q)
    ensures Decided(Take(b, step, setup).host, q)
    ensures Granted(Take(b, step, setup).host, q)
            == if GrantOf(b.host, step, q).Some? then GrantOf(b.host, step, q) else Granted(b.host, q)
  {
    StepRecorded(b, step, setup, q);
    StepGrants(b, step, setup, q);
  }

  lemma {:induction false} GrantsFollow(b: Backend, steps: seq<Step>, setup: Setup, q: Peer)
    requires Decided(b.host, q)
    ensures var h := From(b, steps, setup).host;
            Decided(h, q) && Granted(h, q) == Some(LastGrant(b, steps, setup, q, b.host.sessions[q].permissions))
  {
    if steps != [] {
      var rest, last := steps[..|steps| - 1], steps[|steps| - 1];
      var b1 := From(b, rest, setup);
      GrantsFollow(b, rest, setup, q);
      GrantKept(b1, last, setup, q);
    }
  }

  lemma ApprovalGrants(b: Backend, step: Step, setup: Setup)
    requires step.ApproveStep?
    ensures var h := Take(b, step, setup).host;
            && IsApproved(h, step.peer) && h.sessions[step.peer].deviceId == Some(step.device)
            && Granted(h, step.peer) == Some(step.permissions)
            && (step.notify ==> Offers(h, step.peer) && h.sessions[step.peer].pendingExchange.value.exchange.sessionId == step.env.sessionId)
  {
  }

  lemma InputPermitted(b: Backend, step: Step, setup: Setup, p: Peer)
    requires InputRuns.InputOf(b, step, setup).Some? && InputRuns.InputOf(b, step, setup).value.peer == p && p in b.host.sessions
    ensures InputRuns.Permits(b.host.sessions[p].permissions, InputRuns.InputOf(b, step, setup).value.kind)
  {
    InputRuns.PollLetsThrough(b, step.input, setup);
  }

  /** Over every run: the operator approves a peer, which makes it approved, as that device, with those
      permissions; and whatever input of it is let through later is of a kind allowed by the permissions
      granted last. */
  lemma InputAsGranted(init: Env, first: seq<Step>, approval: Step, more: seq<Step>, step: Step, setup: Setup)
    requires approval.ApproveStep?
    ensures var b := Take(After(init, first, setup), approval, setup);
            && IsApproved(b.host, approval.peer) && b.host.sessions[approval.peer].deviceId == Some(approval.device)
            && (InputRuns.InputOf(From(b, more, setup), step, setup).Some?
                && InputRuns.InputOf(From(b, more, setup), step, setup).value.peer == approval.peer ==>
                  InputRuns.Permits(LastGrant(b, more, setup, approval.peer, approval.permissions),
                                    InputRuns.InputOf(From(b, more, setup), step, setup).value.kind))
  {
    var b := Take(After(init, first, setup), approval, setup);
    ApprovalGrants(After(init, first, setup), approval, setup);
    GrantsFollow(b, more, setup, approval.peer);
    if InputRuns.InputOf(From(b, more, setup), step, setup).Some?
       && InputRuns.InputOf(From(b, more, setup), step, setup).value.peer == approval.peer {
      InputPermitted(From(b, more, setup), step, setup, approval.peer);
    }
  }
}
