/**
 What runs do to a session once it has been approved or rejected: it is never evicted, never goes
 back to pending, never loses its secure channel, and its input moves strictly forward.
 */
module InputRuns {
  import opened Bytes
  import opened Wrappers
  import opened Transport
  import opened Sessions
  import opened Router
  import opened Runtime
  import opened HostRun

  /** A pending session has neither a channel nor a watermark. */
  predicate Calm(s: Session) {
    s.permission == Pending ==> s.secure.None? && s.watermark.None?
  }

  predicate CalmAt(h: Host, p: Peer) {
    p in h.sessions ==> Calm(h.sessions[p])
  }

  predicate NotBehind(mark: Option<Watermark>, mark': Option<Watermark>) {
    mark.Some? ==> mark'.Some? && mark.value.sequence <= mark'.value.sequence && mark.value.timestampUs <= mark'.value.timestampUs
  }

  /** A session past pending stays, stays past pending, and keeps its channel and its progress. */
  predicate Continues(h: Host, h': Host, p: Peer) {
    p in h.sessions && h.sessions[p].permission != Pending ==>
      && p in h'.sessions && h'.sessions[p].permission != Pending
      && (h.sessions[p].secure.Some? ==> h'.sessions[p].secure.Some?)
      && NotBehind(h.sessions[p].watermark, h'.sessions[p].watermark)
  }

  predicate Tame(h: Host, h': Host, p: Peer) {
    && (CalmAt(h, p) ==> CalmAt(h', p))
    && Continues(h, h', p)
  }

  lemma TameThen(h: Host, h1: Host, h2: Host, p: Peer)
    requires Tame(h, h1, p) && Tame(h1, h2, p)
    ensures Tame(h, h2, p)
  {
  }

  lemma EnsureTame(h: Host, peer: Peer, env: Env, p: Peer)
    ensures Tame(h, h.Ensure(peer, env), p)
  {
    if p in h.sessions && h.sessions[p].permission != Pending {
      OnlyPendingEvicted(h.sessions, peer, env.order, env.instant, env.ms, p);
    }
  }

  /** Replacing a session by one that is itself tame. */
  lemma PutTame(h: Host, peer: Peer, s: Session, p: Peer)
    requires peer in h.sessions
    requires Calm(h.sessions[peer]) ==> Calm(s)
    requires h.sessions[peer].permission != Pending ==>
               && s.permission != Pending && (h.sessions[peer].secure.Some? ==> s.secure.Some?)
               && NotBehind(h.sessions[peer].watermark, s.watermark)
    ensures Tame(h, h.Put(peer, s), p)
  {
  }

  lemma BegunTame(h: Host, peer: Peer, setup: Setup, env: Env, p: Peer)
    ensures Tame(h, ExchangeBegun(h, peer, setup, env), p)
  {
    EnsureTame(h, peer, env, p);
  }

  lemma FlushTame(b: Backend, fates: seq<Fate>, p: Peer)
    ensures Tame(b.host, Flush(b, fates).backend.host, p)
    decreases |fates|
  {
    if fates != [] && FlushOne(b, fates[0]).more {
      FlushTame(FlushOne(b, fates[0]).done.backend, fates[1..], p);
    }
  }

  lemma ApproveTame(h: Host, peer: Peer, device: Text, permissions: Permissions, setup: Setup, env: Env, p: Peer)
    ensures Tame(h, Approve(h, peer, device, permissions, env), p)
    ensures Tame(h, ApproveWithResponse(h, peer, device, permissions, setup, env).0, p)
  {
    EnsureTame(h, peer, env, p);
    BegunTame(Advanced(Approve(h, peer, device, permissions, env)), peer, setup, env, p);
  }

  lemma IssueTame(h: Host, peer: Peer, env: Env, p: Peer)
    ensures Tame(h, IssueChallenge(h, peer, env).0, p)
  {
    var h1 := Unexpired(h, env).Ensure(peer, env);
    EnsureTame(Unexpired(h, env), peer, env, p);
    TameThen(h, Unexpired(h, env), h1, p);
    var s := RefreshAttempts(h1.sessions[peer], env.ms);
    PutTame(h1, peer, s, p);
    var expires := Min(Later(env.ms, PAIRING_CHALLENGE_TTL_MS), h1.codeExpiresMs);
    PutTame(h1, peer, s.(pendingPairing := Some(PendingPairing(env.salt, expires)), codeVerified := false), p);
  }

  lemma HostStepTame(h: Host, step: Step, setup: Setup, p: Peer)
    requires !step.PollStep? && !step.FlushStep? && !step.MediaStep?
    ensures Tame(h, HostStep(h, step, setup), p)
  {
    match step {
      case ApproveStep(peer, device, permissions, notify, taken, env) => ApproveTame(h, peer, device, permissions, setup, env, p);
      case RejectStep(peer, env) => EnsureTame(h, peer, env, p);
      case ChallengeStep(peer, device, permissions, env) => EnsureTame(h, peer, env, p);
      case IssueStep(peer, env) => IssueTame(h, peer, env, p);
      case PermissionsStep(device, permissions) =>
    }
  }

  lemma VerifyTame(h: Host, peer: Peer, proof: seq<byte>, setup: Setup, env: Env, p: Peer)
    ensures Tame(h, VerifyProof(h, peer, proof, setup, env).0, p)
  {
    var h1, h' := h.Ensure(peer, env), VerifyProof(h, peer, proof, setup, env).0;
    var s := RefreshAttempts(h1.sessions[peer], env.ms);
    EnsureTame(h, peer, env, p);
    if VerifyProof(h, peer, proof, setup, env).1.None? {
      var verified := h1.Put(peer, s.(codeVerified := true, pendingPairing := None, pairingAttempts := 0));
      assert h' == Rotate(verified, env);
      PutTame(h1, peer, verified.sessions[peer], p);
      TameThen(h1, verified, h', p);
    } else {
      assert h' == h1.Put(peer, h'.sessions[peer]);
      PutTame(h1, peer, h'.sessions[peer], p);
    }
    TameThen(h, h1, h', p);
  }

  /** Approving a session and offering it a key exchange. */
  lemma OfferTame(h: Host, peer: Peer, s: Session, setup: Setup, env: Env, p: Peer)
    requires peer in h.sessions && s.permission == Approved
    requires s.secure == h.sessions[peer].secure && s.watermark == h.sessions[peer].watermark
    ensures Tame(h, ExchangeBegun(Advanced(h.Put(peer, s)), peer, setup, env), p)
  {
    PutTame(h, peer, s, p);
    BegunTame(Advanced(h.Put(peer, s)), peer, setup, env, p);
    TameThen(h, Advanced(h.Put(peer, s)), ExchangeBegun(Advanced(h.Put(peer, s)), peer, setup, env), p);
  }

  lemma PairingTame(h: Host, peer: Peer, body: Body, events: seq<BackendEvent>, setup: Setup, env: Env, p: Peer)
    requires peer in h.sessions
    ensures Tame(h, RoutePairing(h, peer, body, events, setup, env).host, p)
  {
    if body.PairingRequestBody? {
      var key := if body.publicKey == [] then None else Some(body.publicKey);
      var s := h.sessions[peer].(deviceId := Some(body.deviceName), deviceKey := key, pendingAuth := None);
      PutTame(h, peer, s, p);
      VerifyTame(h.Put(peer, s), peer, body.proof, setup, env, p);
      TameThen(h, h.Put(peer, s), VerifyProof(h.Put(peer, s), peer, body.proof, setup, env).0, p);
      OfferTame(h, peer, s.(permission := Approved, deviceId := Some(setup.crypto.trustedDevice(key, peer))), setup, env, p);
    }
  }

  lemma AuthTame(h: Host, peer: Peer, body: Body, events: seq<BackendEvent>, setup: Setup, env: Env, p: Peer)
    requires peer in h.sessions
    ensures Tame(h, RouteAuth(h, peer, body, events, setup, env).host, p)
  {
    if body.AuthResponseBody? && AuthFailure(h.sessions[peer], body, setup, env).None? {
      var s := h.sessions[peer];
      OfferTame(h, peer, s.(permission := Approved, deviceId := Some(s.pendingAuth.value.expectedDevice), pendingAuth := None), setup, env, p);
    }
  }

  lemma ApprovedTame(h: Host, peer: Peer, packet: Packet, events: seq<BackendEvent>, setup: Setup, env: Env, p: Peer)
    requires peer in h.sessions && h.sessions[peer].permission == Approved
    ensures Tame(h, RouteApproved(h, peer, packet, events, setup, env).host, p)
  {
  }

  lemma RouteTame(h: Host, peer: Peer, packet: Packet, setup: Setup, env: Env, p: Peer)
    ensures Tame(h, Route(h, peer, packet, setup, env).host, p)
  {
    if LetIn(h, peer, env) {
      var h0 := Attempted(h, peer, env);
      EnsureTame(h0, peer, env, p);
      var h1 := Seen(h0, peer, env);
      assert Tame(h, h1, p);
      var s := h1.sessions[peer];
      if s.permission != Rejected {
        var events := if s.packetsReceived == 1 then [SessionDiscovered(peer)] else [];
        KnownTame(h1, peer, packet, events, setup, env, p);
      }
    }
  }

  lemma KnownTame(h: Host, peer: Peer, packet: Packet, events: seq<BackendEvent>, setup: Setup, env: Env, p: Peer)
    requires peer in h.sessions
    ensures Tame(h, RouteKnown(h, peer, packet, events, setup, env).host, p)
  {
    PairingTame(h, peer, packet.payload, events, setup, env, p);
    AuthTame(h, peer, packet.payload, events, setup, env, p);
    var s := h.sessions[peer];
    if s.permission == Approved {
      ApprovedTame(h, peer, packet, events, setup, env, p);
    } else {
      var device := if s.deviceId.Some? then s.deviceId else Some(setup.crypto.devDevice(peer));
      var approved := h.Put(peer, s.(permission := Approved, deviceId := device));
      ApprovedTame(approved, peer, packet, events + [PeerAutoApproved(peer)], setup, env, p);
    }
  }

  lemma UpToRoutingTame(b: Backend, i: PollInput, setup: Setup, p: Peer)
    requires Handles(b, i)
    ensures Tame(b.host, Routing(b, i), p)
    ensures Routes(b, i) ==> Tame(b.host, RoutedOf(b, i, setup).host, p)
  {
    FlushTame(b, i.before, p);
    ScreeningKeeps(Screening(b, i), i.received.peer, i.received.datagram, p);
    TameThen(b.host, Screening(b, i), Routing(b, i), p);
    if Routes(b, i) {
      var packet := Screened(Screening(b, i), i.received.peer, i.received.datagram).value;
      RouteTame(Routing(b, i), i.received.peer, packet, setup, i.env, p);
      TameThen(b.host, Routing(b, i), RoutedOf(b, i, setup).host, p);
    }
  }

  lemma UpToLastFlushTame(b: Backend, i: PollInput, setup: Setup, p: Peer)
    requires Routes(b, i) && RoutedOf(b, i, setup).result.Ok?
    ensures Tame(b.host, BeforeLastFlush(b, i, setup).host, p)
  {
    UpToRoutingTame(b, i, setup, p);
    AnsweringKeepsSessions(b, i, setup);
    TameThen(b.host, RoutedOf(b, i, setup).host, BeforeLastFlush(b, i, setup).host, p);
  }

  lemma PollTame(b: Backend, i: PollInput, setup: Setup, p: Peer)
    ensures Tame(b.host, Poll(b, i, setup).backend.host, p)
  {
    PollPhases(b, i, setup);
    FlushTame(b, i.before, p);
    if Handles(b, i) {
      UpToRoutingTame(b, i, setup, p);
      if Routes(b, i) {
        AfterRoutingTame(b, i, setup, p);
        TameThen(b.host, RoutedOf(b, i, setup).host, Poll(b, i, setup).backend.host, p);
      }
    }
  }

  /** Every step of every run. */
  lemma StepTame(b: Backend, step: Step, setup: Setup, p: Peer)
    ensures Tame(b.host, Take(b, step, setup).host, p)
  {
    match step {
      case PollStep(i) => PollTame(b, i, setup, p);
      case FlushStep(fates) => FlushTame(b, fates, p);
      case MediaStep(packets, video, order) =>
      case _ => HostStepTame(b.host, step, setup, p);
    }
  }

  lemma {:induction false} AlwaysCalm(init: Env, steps: seq<Step>, setup: Setup, i: nat, p: Peer)
    requires i <= |steps|
    ensures CalmAt(At(init, steps, setup, i).host, p)
  {
    if i > 0 {
      AlwaysCalm(init, steps, setup, i - 1, p);
      AtNext(init, steps, setup, i - 1);
      StepTame(At(init, steps, setup, i - 1), steps[i - 1], setup, p);
    }
  }

  lemma ContinuesThen(h: Host, h1: Host, h2: Host, p: Peer)
    requires Continues(h, h1, p) && Continues(h1, h2, p)
    ensures Continues(h, h2, p)
  {
  }

  lemma {:induction false} RunContinues(init: Env, steps: seq<Step>, setup: Setup, i: nat, j: nat, p: Peer)
    requires i <= j <= |steps|
    ensures Continues(At(init, steps, setup, i).host, At(init, steps, setup, j).host, p)
  {
    if i < j {
      RunContinues(init, steps, setup, i, j - 1, p);
      AtNext(init, steps, setup, j - 1);
      var mid := At(init, steps, setup, j - 1);
      StepTame(mid, steps[j - 1], setup, p);
      ContinuesThen(At(init, steps, setup, i).host, mid.host, At(init, steps, setup, j).host, p);
    }
  }

  /** Once a peer has a secure session it has one for the rest of every run. */
  lemma SecureForever(init: Env, steps: seq<Step>, setup: Setup, i: nat, j: nat, p: Peer)
    requires i <= j <= |steps|
    requires IsSecure(At(init, steps, setup, i).host.sessions, p)
    ensures IsSecure(At(init, steps, setup, j).host.sessions, p)
  {
    AlwaysCalm(init, steps, setup, i, p);
    RunContinues(init, steps, setup, i, j, p);
  }

  // ---------------------------------------------------------------------------------------------
  // Accepted input
  // ---------------------------------------------------------------------------------------------

  function Permits(permissions: Permissions, kind: InputKind): bool {
    match kind
    case Pen => permissions.allowPen
    case Touch => permissions.allowTouch
    case Keyboard => permissions.allowKeyboard
    case Mouse => permissions.allowMouse
    case Gamepad => permissions.allowGamepad
  }

  /** The input event, if any, that a step lets through. */
  function InputOf(b: Backend, step: Step, setup: Setup): Option<AcceptedInput> {
    if step.PollStep? then Poll(b, step.input, setup).input else None
  }

  /** What holds of input let through while `h` routes a packet to become `h'`: the session it comes
      from is approved and allows its kind, it is ahead of everything let through before, and it
      becomes the watermark. */
  predicate LetThrough(h: Host, a: AcceptedInput, packet: Packet, h': Host) {
    && a.session.permission == Approved && Permits(a.session.permissions, a.kind)
    && a.mark.sequence == packet.sequence && Advances(a.session, a.mark.sequence, a.mark.timestampUs)
    && (a.peer in h.sessions ==> a.session.permissions == h.sessions[a.peer].permissions
                                 && a.session.watermark == h.sessions[a.peer].watermark)
    && a.peer in h'.sessions && h'.sessions[a.peer].permission == Approved && h'.sessions[a.peer].watermark == Some(a.mark)
  }

  predicate ReportsInput(e: BackendEvent) {
    e.InputDecoded? || e.InputInjected?
  }

  /** Events report input only if it was let through, and then of that peer and kind. */
  ghost predicate Faithful(events: seq<BackendEvent>, input: Option<AcceptedInput>) {
    forall i :: 0 <= i < |events| && ReportsInput(events[i]) ==>
      input.Some? && events[i].peer == input.value.peer && events[i].kind == input.value.kind
  }

  ghost predicate NoInput(events: seq<BackendEvent>) {
    Faithful(events, None)
  }

  ghost predicate ReportedFaithfully(r: Routed) {
    r.result.Ok? ==> Faithful(r.result.value.events, r.input)
  }

  lemma FaithfulAppend(events: seq<BackendEvent>, more: seq<BackendEvent>, input: Option<AcceptedInput>)
    requires NoInput(events) && Faithful(more, input)
    ensures Faithful(events + more, input) && Faithful(more + events, input)
  {
  }

  lemma RouteInputAuthorized(h: Host, peer: Peer, packet: Packet, kind: InputKind, events: seq<BackendEvent>, setup: Setup, env: Env)
    requires peer in h.sessions && h.sessions[peer].permission == Approved
    requires AllowsInput(h.sessions[peer], packet.messageKind) && InputKindOf(packet.messageKind) == Some(kind)
    requires NoInput(events)
    ensures var r := RouteInput(h, peer, packet, kind, events, setup, env);
            && ReportedFaithfully(r)
            && (r.input.Some? ==> r.input.value.peer == peer && LetThrough(h, r.input.value, packet, r.host))
  {
    var r := RouteInput(h, peer, packet, kind, events, setup, env);
    if r.result.Ok? {
      FaithfulAppend(events, if r.input.Some? then InputEvents(peer, kind, kind in setup.bridges) else [PacketIgnored(peer, LateInput)], r.input);
    }
  }

  lemma PairingReports(h: Host, peer: Peer, body: Body, events: seq<BackendEvent>, setup: Setup, env: Env)
    requires peer in h.sessions && NoInput(events)
    ensures ReportedFaithfully(RoutePairing(h, peer, body, events, setup, env))
  {
  }

  lemma AuthReports(h: Host, peer: Peer, body: Body, events: seq<BackendEvent>, setup: Setup, env: Env)
    requires peer in h.sessions && NoInput(events)
    ensures ReportedFaithfully(RouteAuth(h, peer, body, events, setup, env))
  {
  }

  lemma ConfirmReports(h: Host, peer: Peer, body: Body, events: seq<BackendEvent>, setup: Setup, env: Env)
    requires peer in h.sessions && NoInput(events)
    ensures ReportedFaithfully(RouteConfirm(h, peer, body, events, setup, env))
  {
  }

  lemma RouteApprovedAuthorized(h: Host, peer: Peer, packet: Packet, events: seq<BackendEvent>, setup: Setup, env: Env)
    requires peer in h.sessions && h.sessions[peer].permission == Approved && NoInput(events)
    ensures var r := RouteApproved(h, peer, packet, events, setup, env);
            && ReportedFaithfully(r)
            && (r.input.Some? ==> r.input.value.peer == peer && LetThrough(h, r.input.value, packet, r.host))
  {
    var kind := InputKindOf(packet.messageKind);
    if packet.messageKind == SessionKeyConfirm {
      ConfirmReports(h, peer, packet.payload, events, setup, env);
    } else if AllowsInput(h.sessions[peer], packet.messageKind) && kind.Some? {
      RouteInputAuthorized(h, peer, packet, kind.value, events, setup, env);
    }
  }

  lemma RouteKnownAuthorized(h: Host, peer: Peer, packet: Packet, events: seq<BackendEvent>, setup: Setup, env: Env)
    requires peer in h.sessions && NoInput(events)
    ensures var r := RouteKnown(h, peer, packet, events, setup, env);
            && ReportedFaithfully(r)
            && (r.input.Some? ==> r.input.value.peer == peer && LetThrough(h, r.input.value, packet, r.host))
  {
    var s := h.sessions[peer];
    if packet.messageKind == PairingRequest {
      PairingReports(h, peer, packet.payload, events, setup, env);
    } else if packet.messageKind == AuthResponse {
      AuthReports(h, peer, packet.payload, events, setup, env);
    } else if s.permission == Approved {
      RouteApprovedAuthorized(h, peer, packet, events, setup, env);
    } else if setup.policy == DevAutoApprove {
      var device := if s.deviceId.Some? then s.deviceId else Some(setup.crypto.devDevice(peer));
      RouteApprovedAuthorized(h.Put(peer, s.(permission := Approved, deviceId := device)), peer, packet,
                              events + [PeerAutoApproved(peer)], setup, env);
    }
  }

  /** Every packet: input is let through, and reported, only as `LetThrough` allows. */
  lemma InputAuthorized(h: Host, peer: Peer, packet: Packet, setup: Setup, env: Env)
    ensures var r := Route(h, peer, packet, setup, env);
            && ReportedFaithfully(r)
            && (r.input.Some? ==> r.input.value.peer == peer && LetThrough(h, r.input.value, packet, r.host))
  {
    if LetIn(h, peer, env) {
      var h1 := Seen(Attempted(h, peer, env), peer, env);
      var events := if h1.sessions[peer].packetsReceived == 1 then [SessionDiscovered(peer)] else [];
      RouteKnownAuthorized(h1, peer, packet, events, setup, env);
    }
  }

  /** What holds of input let through by a poll that takes `h` to `h'`. */
  predicate LetThroughByPoll(h: Host, a: AcceptedInput, h': Host) {
    && a.session.permission == Approved && Permits(a.session.permissions, a.kind)
    && (a.peer in h.sessions ==> a.session.permissions == h.sessions[a.peer].permissions)
    && (a.peer in h.sessions && h.sessions[a.peer].permission != Pending ==> Ahead(h.sessions[a.peer].watermark, a.mark))
    && a.peer in h'.sessions && h'.sessions[a.peer].permission != Pending
    && NotBehind(Some(a.mark), h'.sessions[a.peer].watermark)
  }

  predicate Ahead(mark: Option<Watermark>, mark': Watermark) {
    mark.Some? ==> mark.value.sequence < mark'.sequence && mark.value.timestampUs <= mark'.timestampUs
  }

  lemma ScreeningKeeps(h: Host, peer: Peer, d: Datagram, p: Peer)
    ensures Tame(h, AfterScreening(h, peer, d), p)
    ensures p in h.sessions <==> p in AfterScreening(h, peer, d).sessions
    ensures p in h.sessions ==> h.sessions[p].permissions == AfterScreening(h, peer, d).sessions[p].permissions
  {
  }

  lemma {:induction false} FlushKeeps(b: Backend, fates: seq<Fate>, p: Peer)
    ensures p in b.host.sessions <==> p in Flush(b, fates).backend.host.sessions
    ensures p in b.host.sessions ==> b.host.sessions[p].permissions == Flush(b, fates).backend.host.sessions[p].permissions
    decreases |fates|
  {
    if fates != [] && FlushOne(b, fates[0]).more {
      FlushKeeps(FlushOne(b, fates[0]).done.backend, fates[1..], p);
    }
  }

  lemma PollLetsThrough(b: Backend, i: PollInput, setup: Setup)
    requires Poll(b, i, setup).input.Some?
    ensures LetThroughByPoll(b.host, Poll(b, i, setup).input.value, Poll(b, i, setup).backend.host)
  {
    PollPhases(b, i, setup);
    var p, packet := i.received.peer, Screened(Screening(b, i), i.received.peer, i.received.datagram).value;
    FlushTame(b, i.before, p);
    FlushKeeps(b, i.before, p);
    ScreeningKeeps(Screening(b, i), p, i.received.datagram, p);
    TameThen(b.host, Screening(b, i), Routing(b, i), p);
    InputAuthorized(Routing(b, i), p, packet, setup, i.env);
    AfterRoutingTame(b, i, setup, p);
  }

  lemma AfterRoutingTame(b: Backend, i: PollInput, setup: Setup, p: Peer)
    requires Routes(b, i)
    ensures Tame(RoutedOf(b, i, setup).host, Poll(b, i, setup).backend.host, p)
  {
    PollPhases(b, i, setup);
    if RoutedOf(b, i, setup).result.Ok? {
      AnsweringKeepsSessions(b, i, setup);
      FlushTame(BeforeLastFlush(b, i, setup), i.after, p);
    }
  }

  lemma {:induction false} FlushReports(b: Backend, fates: seq<Fate>)
    ensures NoInput(Flush(b, fates).events)
    decreases |fates|
  {
    if fates != [] && FlushOne(b, fates[0]).more {
      FlushReports(FlushOne(b, fates[0]).done.backend, fates[1..]);
    }
  }

  lemma CompletedReports(b: Backend, peer: Peer, packet: Packet, routed: Routed, i: PollInput)
    requires ReportedFaithfully(routed)
    ensures Faithful(Completed(b, peer, packet, routed, i).events, routed.input)
  {
    if routed.result.Ok? {
      var o, b1 := routed.result.value, b.(host := routed.host);
      var o1 := WithDisplays(b1.host, peer, o, i.displays, i.env).1;
      var (b2, events) := Answered(b1, peer, o, i.displays, i.env);
      FaithfulAppend([DisplayInfoQueued(peer, i.displays)], o.events, routed.input);
      FaithfulAppend(if o1.outbound == [] then [] else [OutboundQueued(peer, |o1.outbound|)], o1.events, routed.input);
      FlushReports(b2, i.after);
      FaithfulAppend(Flush(b2, i.after).events, events, routed.input);
    }
  }

  /** Input events a poll returns are of the input it let through. */
  lemma PollReports(b: Backend, i: PollInput, setup: Setup)
    ensures Faithful(Poll(b, i, setup).events, Poll(b, i, setup).input)
  {
    FlushReports(b, i.before);
    if Routes(b, i) {
      var p, packet := i.received.peer, Screened(Screening(b, i), i.received.peer, i.received.datagram).value;
      PollRoutes(b, i, setup);
      InputAuthorized(Routing(b, i), p, packet, setup, i.env);
      CompletedReports(Arriving(b, i), p, packet, RoutedOf(b, i, setup), i);
      CompletedPhases(Arriving(b, i), p, packet, RoutedOf(b, i, setup), i);
      FaithfulAppend(Flush(b, i.before).events, Completed(Arriving(b, i), p, packet, RoutedOf(b, i, setup), i).events, RoutedOf(b, i, setup).input);
    }
  }

  /** Over every run: each input event comes from an approved session permitted to send its kind, and
      of two events of one peer the later has the greater packet sequence and no smaller timestamp. */
  lemma InputOrdered(init: Env, steps: seq<Step>, setup: Setup, i: nat, j: nat)
    requires i < j < |steps|
    requires InputOf(At(init, steps, setup, i), steps[i], setup).Some?
    requires InputOf(At(init, steps, setup, j), steps[j], setup).Some?
    ensures var a, c := InputOf(At(init, steps, setup, i), steps[i], setup).value, InputOf(At(init, steps, setup, j), steps[j], setup).value;
            && a.session.permission == Approved && Permits(a.session.permissions, a.kind)
            && c.session.permission == Approved && Permits(c.session.permissions, c.kind)
            && (a.peer == c.peer ==> Ahead(Some(a.mark), c.mark))
  {
    var before, later := At(init, steps, setup, i), At(init, steps, setup, j);
    PollLetsThrough(before, steps[i].input, setup);
    PollLetsThrough(later, steps[j].input, setup);
    var a, c := Poll(before, steps[i].input, setup).input.value, Poll(later, steps[j].input, setup).input.value;
    AtNext(init, steps, setup, i);
    RunContinues(init, steps, setup, i + 1, j, a.peer);
    if a.peer == c.peer {
      AheadThen(before.host, a, At(init, steps, setup, i + 1).host, later.host, c, Poll(later, steps[j].input, setup).backend.host);
    }
  }

  lemma AheadThen(h: Host, a: AcceptedInput, h1: Host, h2: Host, c: AcceptedInput, h3: Host)
    requires LetThroughByPoll(h, a, h1) && LetThroughByPoll(h2, c, h3) && Continues(h1, h2, a.peer) && a.peer == c.peer
    ensures Ahead(Some(a.mark), c.mark)
  {
  }
}
