/**
 Pairing codes over runs. A log records every rotation of the code, every challenge issued and every
 challenge spent on a proof; the host's state always agrees with it.
 */
module PairingRuns {
  import opened Bytes
  import opened Wrappers
  import opened Transport
  import opened Sessions
  import opened Router
  import opened Runtime
  import opened HostRun

  datatype Code = Code(digits: nat, expiresMs: u64)

  /** A success changes the code; a failure spends only the challenge. */
  datatype PairingEvent =
    | Rotated(code: Code)
    | Issued(peer: Peer, challenge: PendingPairing, under: Code)
    | Failed(peer: Peer, challenge: PendingPairing)
    | Succeeded(peer: Peer, challenge: PendingPairing, proof: seq<byte>, ms: u64, code: Code)

  function CodeOf(h: Host): Code {
    Code(h.code, h.codeExpiresMs)
  }

  // ---------------------------------------------------------------------------------------------
  // What each call logs
  // ---------------------------------------------------------------------------------------------

  function RefreshLog(h: Host, env: Env): seq<PairingEvent> {
    if env.ms >= h.codeExpiresMs then [Rotated(CodeOf(Rotate(h, env)))] else []
  }

  function ChallengeIn(h: Host, p: Peer): Option<PendingPairing> {
    if p in h.sessions then h.sessions[p].pendingPairing else None
  }

  function IssuedLog(h: Host, peer: Peer, env: Env): seq<PairingEvent>
    requires peer in h.sessions
  {
    var (h', packet) := IssueTo(h, peer, env);
    if packet.Some? && ChallengeIn(h', peer).Some? then [Issued(peer, ChallengeIn(h', peer).value, CodeOf(h'))] else []
  }

  function IssueLog(h: Host, peer: Peer, env: Env): seq<PairingEvent> {
    RefreshLog(h, env) + IssuedLog(Unexpired(h, env).Ensure(peer, env), peer, env)
  }

  /** A proof spends the peer's challenge unless it has no attempts left. */
  function VerifyLog(h: Host, peer: Peer, proof: seq<byte>, setup: Setup, env: Env): seq<PairingEvent>
    requires peer in h.sessions
  {
    var challenge := h.sessions[peer].pendingPairing;
    var (h', failure) := VerifyProof(h, peer, proof, setup, env);
    if challenge.None? || failure == Some(AttemptLimit) then []
    else if failure.None? then [Succeeded(peer, challenge.value, proof, env.ms, CodeOf(h'))]
    else [Failed(peer, challenge.value)]
  }

  /** The host that checks a proof while routing a packet, if one is checked. */
  function ProofCheck(h: Host, peer: Peer, packet: Packet, setup: Setup, env: Env): (r: Option<Host>)
    ensures r.Some? ==> peer in r.value.sessions && packet.payload.PairingRequestBody?
  {
    if !LetIn(h, peer, env) then None
    else
      var h1 := Seen(Attempted(h, peer, env), peer, env);
      if h1.sessions[peer].permission == Rejected || packet.messageKind != PairingRequest || !packet.payload.PairingRequestBody?
         || setup.policy == DevAutoApprove || packet.payload.proof == [] then None
      else
        var key := if packet.payload.publicKey == [] then None else Some(packet.payload.publicKey);
        Some(h1.Put(peer, h1.sessions[peer].(deviceId := Some(packet.payload.deviceName), deviceKey := key, pendingAuth := None)))
  }

  function RouteLog(h: Host, peer: Peer, packet: Packet, setup: Setup, env: Env): seq<PairingEvent> {
    var check := ProofCheck(h, peer, packet, setup, env);
    if check.Some? then VerifyLog(check.value, peer, packet.payload.proof, setup, env) else []
  }

  function StepLog(b: Backend, step: Step, setup: Setup): seq<PairingEvent> {
    match step
    case PollStep(i) =>
      if Routes(b, i)
      then RouteLog(Routing(b, i), i.received.peer, Screened(Screening(b, i), i.received.peer, i.received.datagram).value, setup, i.env)
      else []
    case IssueStep(peer, env) => IssueLog(b.host, peer, env)
    case _ => []
  }

  function PairingLog(init: Env, steps: seq<Step>, setup: Setup, i: nat): seq<PairingEvent>
    requires i <= |steps|
  {
    if i == 0 then [Rotated(CodeOf(Start(init).host))]
    else PairingLog(init, steps, setup, i - 1) + StepLog(At(init, steps, setup, i - 1), steps[i - 1], setup)
  }

  // ---------------------------------------------------------------------------------------------
  // What a log says
  // ---------------------------------------------------------------------------------------------

  function CurrentCode(log: seq<PairingEvent>): Option<Code> {
    if log == [] then None
    else
      match log[|log| - 1]
      case Rotated(code) => Some(code)
      case Succeeded(_, _, _, _, code) => Some(code)
      case _ => CurrentCode(log[..|log| - 1])
  }

  /** The challenge a peer may still answer: its last, if not spent and the code has not changed. */
  function Outstanding(log: seq<PairingEvent>, p: Peer): Option<PendingPairing> {
    if log == [] then None
    else
      match log[|log| - 1]
      case Rotated(_) => None
      case Succeeded(_, _, _, _, _) => None
      case Issued(peer, challenge, _) => if peer == p then Some(challenge) else Outstanding(log[..|log| - 1], p)
      case Failed(peer, _) => if peer == p then None else Outstanding(log[..|log| - 1], p)
  }

  /** An event is in order after the events before it. */
  predicate InOrder(before: seq<PairingEvent>, e: PairingEvent, crypto: Crypto) {
    match e
    case Rotated(_) => true
    case Issued(_, challenge, under) => CurrentCode(before) == Some(under) && challenge.expiresAtMs <= under.expiresMs
    case Failed(p, challenge) => Outstanding(before, p) == Some(challenge)
    case Succeeded(p, challenge, proof, ms, _) =>
      && Outstanding(before, p) == Some(challenge)
      && CurrentCode(before).Some?
      && proof == crypto.proof(CurrentCode(before).value.digits, challenge.salt)
      && ms <= challenge.expiresAtMs && ms <= CurrentCode(before).value.expiresMs
  }

  predicate AllInOrder(log: seq<PairingEvent>, crypto: Crypto) {
    log == [] || (AllInOrder(log[..|log| - 1], crypto) && InOrder(log[..|log| - 1], log[|log| - 1], crypto))
  }

  /** A challenge a session holds is outstanding and does not outlive the code. */
  predicate Backed(h: Host, log: seq<PairingEvent>, p: Peer) {
    ChallengeIn(h, p).Some? ==>
      Outstanding(log, p) == ChallengeIn(h, p) && ChallengeIn(h, p).value.expiresAtMs <= h.codeExpiresMs
  }

  ghost predicate Paired(h: Host, log: seq<PairingEvent>, crypto: Crypto) {
    && AllInOrder(log, crypto)
    && CurrentCode(log) == Some(CodeOf(h))
    && forall p :: Backed(h, log, p)
  }

  lemma Extends(log: seq<PairingEvent>, e: PairingEvent, crypto: Crypto)
    ensures AllInOrder(log + [e], crypto) <==> AllInOrder(log, crypto) && InOrder(log, e, crypto)
    ensures CurrentCode(log + [e]) == (match e case Rotated(code) => Some(code) case Succeeded(_, _, _, _, code) => Some(code) case _ => CurrentCode(log))
    ensures forall p :: Outstanding(log + [e], p)
                        == (if e.Rotated? || e.Succeeded? then None
                            else if e.peer != p then Outstanding(log, p)
                            else if e.Issued? then Some(e.challenge) else None)
  {
    assert (log + [e])[..|log|] == log;
  }

  // ---------------------------------------------------------------------------------------------
  // Quiet changes
  // ---------------------------------------------------------------------------------------------

  /** The code stays, and the session keeps at most what challenge and verdict it had. */
  predicate Quiet(h: Host, h': Host, q: Peer) {
    && CodeOf(h') == CodeOf(h)
    && (ChallengeIn(h', q).Some? ==> ChallengeIn(h', q) == ChallengeIn(h, q))
    && (Verified(h', q) ==> Verified(h, q))
    && (Spare(h, q) ==> Spare(h', q))
  }

  predicate Verified(h: Host, q: Peer) {
    q in h.sessions && h.sessions[q].codeVerified
  }

  /** No more attempts were counted than are allowed. */
  predicate Spare(h: Host, q: Peer) {
    q in h.sessions ==> h.sessions[q].pairingAttempts <= MAX_PAIRING_CODE_ATTEMPTS
  }

  lemma QuietThen(h: Host, h1: Host, h2: Host, q: Peer)
    requires Quiet(h, h1, q) && Quiet(h1, h2, q)
    ensures Quiet(h, h2, q)
  {
  }

  lemma EnsureQuiet(h: Host, peer: Peer, env: Env, q: Peer)
    ensures Quiet(h, h.Ensure(peer, env), q)
  {
  }

  lemma PutQuiet(h: Host, peer: Peer, s: Session, q: Peer)
    requires peer in h.sessions
    requires s.pendingPairing == h.sessions[peer].pendingPairing && s.codeVerified == h.sessions[peer].codeVerified
    requires s.pairingAttempts == h.sessions[peer].pairingAttempts
    ensures Quiet(h, h.Put(peer, s), q)
  {
  }

  lemma BegunQuiet(h: Host, peer: Peer, setup: Setup, env: Env, q: Peer)
    ensures Quiet(h, ExchangeBegun(h, peer, setup, env), q)
  {
    EnsureQuiet(h, peer, env, q);
  }

  lemma AdvancedBegunQuiet(h: Host, peer: Peer, setup: Setup, env: Env, q: Peer)
    ensures Quiet(h, Advanced(h), q) && Quiet(h, ExchangeBegun(Advanced(h), peer, setup, env), q)
  {
    BegunQuiet(Advanced(h), peer, setup, env, q);
    QuietThen(h, Advanced(h), ExchangeBegun(Advanced(h), peer, setup, env), q);
  }

  lemma ApproveQuiet(h: Host, peer: Peer, device: Text, permissions: Permissions, setup: Setup, env: Env, q: Peer)
    ensures Quiet(h, Approve(h, peer, device, permissions, env), q)
    ensures Quiet(h, ApproveWithResponse(h, peer, device, permissions, setup, env).0, q)
  {
    var h1 := h.Ensure(peer, env);
    EnsureQuiet(h, peer, env, q);
    var h2 := Approve(h, peer, device, permissions, env);
    PutQuiet(h1, peer, h2.sessions[peer], q);
    QuietThen(h, h1, h2, q);
    AdvancedBegunQuiet(h2, peer, setup, env, q);
    QuietThen(h, h2, ExchangeBegun(Advanced(h2), peer, setup, env), q);
  }

  lemma HostStepQuiet(h: Host, step: Step, setup: Setup, q: Peer)
    requires !step.PollStep? && !step.FlushStep? && !step.MediaStep? && !step.IssueStep?
    ensures Quiet(h, HostStep(h, step, setup), q)
  {
    match step {
      case ApproveStep(peer, device, permissions, notify, taken, env) => ApproveQuiet(h, peer, device, permissions, setup, env, q);
      case RejectStep(peer, env) => EnsureQuiet(h, peer, env, q);
      case ChallengeStep(peer, device, permissions, env) => EnsureQuiet(h, peer, env, q);
      case PermissionsStep(device, permissions) =>
    }
  }

  lemma {:induction false} FlushQuiet(b: Backend, fates: seq<Fate>, q: Peer)
    ensures Quiet(b.host, Flush(b, fates).backend.host, q)
    decreases |fates|
  {
    if fates != [] && FlushOne(b, fates[0]).more {
      FlushQuiet(FlushOne(b, fates[0]).done.backend, fates[1..], q);
    }
  }

  lemma ScreeningQuiet(h: Host, peer: Peer, d: Datagram, q: Peer)
    ensures Quiet(h, AfterScreening(h, peer, d), q)
  {
  }

  // ---------------------------------------------------------------------------------------------
  // Quiet routing
  // ---------------------------------------------------------------------------------------------

  lemma SeenQuiet(h: Host, peer: Peer, env: Env, q: Peer)
    ensures Quiet(h, Attempted(h, peer, env), q)
    ensures Quiet(h, Seen(Attempted(h, peer, env), peer, env), q)
  {
    var h0 := Attempted(h, peer, env);
    EnsureQuiet(h0, peer, env, q);
    PutQuiet(h0.Ensure(peer, env), peer, Seen(h0, peer, env).sessions[peer], q);
    QuietThen(h0, h0.Ensure(peer, env), Seen(h0, peer, env), q);
    QuietThen(h, h0, Seen(h0, peer, env), q);
  }

  lemma ApprovedQuiet(h: Host, peer: Peer, packet: Packet, events: seq<BackendEvent>, setup: Setup, env: Env, q: Peer)
    requires peer in h.sessions
    ensures Quiet(h, RouteApproved(h, peer, packet, events, setup, env).host, q)
  {
  }

  lemma AuthQuiet(h: Host, peer: Peer, body: Body, events: seq<BackendEvent>, setup: Setup, env: Env, q: Peer)
    requires peer in h.sessions
    ensures Quiet(h, RouteAuth(h, peer, body, events, setup, env).host, q)
  {
    if body.AuthResponseBody? && AuthFailure(h.sessions[peer], body, setup, env).None? {
      var s := h.sessions[peer];
      var h1 := h.Put(peer, s.(permission := Approved, deviceId := Some(s.pendingAuth.value.expectedDevice), pendingAuth := None));
      PutQuiet(h, peer, h1.sessions[peer], q);
      AdvancedBegunQuiet(h1, peer, setup, env, q);
      QuietThen(h, h1, ExchangeBegun(Advanced(h1), peer, setup, env), q);
    }
  }

  /** Without a proof to check. */
  lemma PairingQuiet(h: Host, peer: Peer, body: Body, events: seq<BackendEvent>, setup: Setup, env: Env, q: Peer)
    requires peer in h.sessions
    requires body.PairingRequestBody? ==> setup.policy == DevAutoApprove || body.proof == []
    ensures Quiet(h, RoutePairing(h, peer, body, events, setup, env).host, q)
  {
    if body.PairingRequestBody? && setup.policy == DevAutoApprove {
      var key := if body.publicKey == [] then None else Some(body.publicKey);
      var s := h.sessions[peer].(deviceId := Some(body.deviceName), deviceKey := key, pendingAuth := None);
      var h1 := h.Put(peer, s.(permission := Approved, deviceId := Some(setup.crypto.trustedDevice(key, peer))));
      PutQuiet(h, peer, h1.sessions[peer], q);
      AdvancedBegunQuiet(h1, peer, setup, env, q);
      QuietThen(h, h1, ExchangeBegun(Advanced(h1), peer, setup, env), q);
    }
  }

  lemma KnownQuiet(h: Host, peer: Peer, packet: Packet, events: seq<BackendEvent>, setup: Setup, env: Env, q: Peer)
    requires peer in h.sessions
    requires packet.messageKind == PairingRequest && packet.payload.PairingRequestBody? ==> setup.policy == DevAutoApprove || packet.payload.proof == []
    ensures Quiet(h, RouteKnown(h, peer, packet, events, setup, env).host, q)
  {
    var s := h.sessions[peer];
    if packet.messageKind == PairingRequest {
      PairingQuiet(h, peer, packet.payload, events, setup, env, q);
    } else if packet.messageKind == AuthResponse {
      AuthQuiet(h, peer, packet.payload, events, setup, env, q);
    } else if s.permission == Approved {
      ApprovedQuiet(h, peer, packet, events, setup, env, q);
    } else if setup.policy == DevAutoApprove {
      var device := if s.deviceId.Some? then s.deviceId else Some(setup.crypto.devDevice(peer));
      var approved := h.Put(peer, s.(permission := Approved, deviceId := device));
      PutQuiet(h, peer, approved.sessions[peer], q);
      ApprovedQuiet(approved, peer, packet, events + [PeerAutoApproved(peer)], setup, env, q);
      QuietThen(h, approved, RouteApproved(approved, peer, packet, events + [PeerAutoApproved(peer)], setup, env).host, q);
    }
  }

  lemma RouteQuiet(h: Host, peer: Peer, packet: Packet, setup: Setup, env: Env, q: Peer)
    requires ProofCheck(h, peer, packet, setup, env).None?
    ensures Quiet(h, Route(h, peer, packet, setup, env).host, q)
  {
    SeenQuiet(h, peer, env, q);
    if LetIn(h, peer, env) {
      var h1 := Seen(Attempted(h, peer, env), peer, env);
      var events := if h1.sessions[peer].packetsReceived == 1 then [SessionDiscovered(peer)] else [];
      if h1.sessions[peer].permission != Rejected {
        KnownQuiet(h1, peer, packet, events, setup, env, q);
        QuietThen(h, h1, RouteKnown(h1, peer, packet, events, setup, env).host, q);
      }
    }
  }

  /** With a proof to check, routing is quiet up to the check, and after it. */
  lemma RouteChecks(h: Host, peer: Peer, packet: Packet, setup: Setup, env: Env, q: Peer)
    requires ProofCheck(h, peer, packet, setup, env).Some?
    ensures var h1 := ProofCheck(h, peer, packet, setup, env).value;
            && Quiet(h, h1, q)
            && Quiet(VerifyProof(h1, peer, packet.payload.proof, setup, env).0, Route(h, peer, packet, setup, env).host, q)
  {
    var seen, h1 := Seen(Attempted(h, peer, env), peer, env), ProofCheck(h, peer, packet, setup, env).value;
    SeenQuiet(h, peer, env, q);
    PutQuiet(seen, peer, h1.sessions[peer], q);
    QuietThen(h, seen, h1, q);
    RouteAfterCheck(h, peer, packet, setup, env);
  }

  lemma RouteAfterCheck(h: Host, peer: Peer, packet: Packet, setup: Setup, env: Env)
    requires ProofCheck(h, peer, packet, setup, env).Some?
    ensures var verified := VerifyProof(ProofCheck(h, peer, packet, setup, env).value, peer, packet.payload.proof, setup, env).0;
            Route(h, peer, packet, setup, env).host in {verified, Advanced(verified)}
  {
    var seen := Seen(Attempted(h, peer, env), peer, env);
    var events := if seen.sessions[peer].packetsReceived == 1 then [SessionDiscovered(peer)] else [];
    assert Route(h, peer, packet, setup, env) == RoutePairing(seen, peer, packet.payload, events, setup, env);
  }

  // ---------------------------------------------------------------------------------------------
  // Every step keeps host and log together
  // ---------------------------------------------------------------------------------------------

  /** How a step that logs `more` may change a session's verdict and attempts. */
  predicate Judged(h: Host, h': Host, more: seq<PairingEvent>, q: Peer) {
    && (Verified(h', q) && !Verified(h, q) ==> more != [] && more[|more| - 1].Succeeded? && more[|more| - 1].peer == q)
    && (Spare(h, q) ==> Spare(h', q))
  }

  lemma QuietPaired(h: Host, h': Host, log: seq<PairingEvent>, crypto: Crypto)
    requires Paired(h, log, crypto)
    requires forall q :: Quiet(h, h', q)
    ensures Paired(h', log, crypto)
  {
    assert Quiet(h, h', Peer(0, 0));
    forall p
      ensures Backed(h', log, p)
    {
      assert Quiet(h, h', p) && Backed(h, log, p);
    }
  }

  lemma UnexpiredPaired(h: Host, env: Env, log: seq<PairingEvent>, crypto: Crypto)
    requires Paired(h, log, crypto)
    ensures Paired(Unexpired(h, env), log + RefreshLog(h, env), crypto)
    ensures forall q :: Judged(h, Unexpired(h, env), [], q)
  {
    if env.ms >= h.codeExpiresMs {
      Extends(log, Rotated(CodeOf(Rotate(h, env))), crypto);
    } else {
      assert log + [] == log;
    }
  }

  lemma IssuedPaired(h: Host, peer: Peer, env: Env, log: seq<PairingEvent>, crypto: Crypto)
    requires Paired(h, log, crypto) && peer in h.sessions
    ensures Paired(IssueTo(h, peer, env).0, log + IssuedLog(h, peer, env), crypto)
    ensures forall q :: Judged(h, IssueTo(h, peer, env).0, [], q)
  {
    var (h', packet) := IssueTo(h, peer, env);
    if packet.Some? {
      Extends(log, Issued(peer, ChallengeIn(h', peer).value, CodeOf(h')), crypto);
    } else {
      assert log + [] == log;
    }
    forall p
      ensures Backed(h', log + IssuedLog(h, peer, env), p)
    {
      assert Backed(h, log, p);
    }
  }

  lemma IssuePaired(h: Host, peer: Peer, env: Env, log: seq<PairingEvent>, crypto: Crypto)
    requires Paired(h, log, crypto)
    ensures Paired(IssueChallenge(h, peer, env).0, log + IssueLog(h, peer, env), crypto)
    ensures forall q :: Judged(h, IssueChallenge(h, peer, env).0, IssueLog(h, peer, env), q)
  {
    var h1, h2 := Unexpired(h, env), Unexpired(h, env).Ensure(peer, env);
    UnexpiredPaired(h, env, log, crypto);
    forall q
      ensures Quiet(h1, h2, q)
    {
      EnsureQuiet(h1, peer, env, q);
    }
    QuietPaired(h1, h2, log + RefreshLog(h, env), crypto);
    IssuedPaired(h2, peer, env, log + RefreshLog(h, env), crypto);
    Append(log, RefreshLog(h, env), IssuedLog(h2, peer, env));
    forall q
      ensures Judged(h, IssueChallenge(h, peer, env).0, IssueLog(h, peer, env), q)
    {
      assert Judged(h, h1, [], q) && Quiet(h1, h2, q) && Judged(h2, IssueTo(h2, peer, env).0, [], q);
    }
  }

  lemma VerifyPaired(h: Host, peer: Peer, proof: seq<byte>, setup: Setup, env: Env, log: seq<PairingEvent>)
    requires Paired(h, log, setup.crypto) && peer in h.sessions
    ensures Paired(VerifyProof(h, peer, proof, setup, env).0, log + VerifyLog(h, peer, proof, setup, env), setup.crypto)
    ensures forall q :: Judged(h, VerifyProof(h, peer, proof, setup, env).0, VerifyLog(h, peer, proof, setup, env), q)
  {
    var (h', failure) := VerifyProof(h, peer, proof, setup, env);
    var more := VerifyLog(h, peer, proof, setup, env);
    assert Backed(h, log, peer);
    if more == [] {
      assert log + [] == log;
    } else {
      Extends(log, more[0], setup.crypto);
    }
    forall p
      ensures Backed(h', log + more, p)
    {
      assert Backed(h, log, p);
    }
  }

  /** A step that is quiet before `h1` and after `h2`. */
  lemma BetweenPaired(h: Host, h1: Host, h2: Host, h3: Host, log: seq<PairingEvent>, more: seq<PairingEvent>, crypto: Crypto)
    requires Paired(h2, log + more, crypto)
    requires forall q :: Quiet(h, h1, q) && Judged(h1, h2, more, q) && Quiet(h2, h3, q)
    ensures Paired(h3, log + more, crypto)
    ensures forall q :: Judged(h, h3, more, q)
  {
    forall q
      ensures Quiet(h2, h3, q) && Judged(h, h3, more, q)
    {
      assert Quiet(h, h1, q) && Judged(h1, h2, more, q) && Quiet(h2, h3, q);
      JudgedBetween(h, h1, h2, h3, more, q);
    }
    QuietPaired(h2, h3, log + more, crypto);
  }

  lemma QuietRoutePaired(h: Host, peer: Peer, packet: Packet, setup: Setup, env: Env, log: seq<PairingEvent>)
    requires Paired(h, log, setup.crypto) && ProofCheck(h, peer, packet, setup, env).None?
    ensures Paired(Route(h, peer, packet, setup, env).host, log, setup.crypto)
    ensures forall q :: Judged(h, Route(h, peer, packet, setup, env).host, [], q)
  {
    forall q
      ensures Quiet(h, Route(h, peer, packet, setup, env).host, q) && Judged(h, Route(h, peer, packet, setup, env).host, [], q)
    {
      RouteQuiet(h, peer, packet, setup, env, q);
      QuietJudged(h, Route(h, peer, packet, setup, env).host, q);
    }
    QuietPaired(h, Route(h, peer, packet, setup, env).host, log, setup.crypto);
  }

  lemma RoutePaired(h: Host, peer: Peer, packet: Packet, setup: Setup, env: Env, log: seq<PairingEvent>)
    requires Paired(h, log, setup.crypto)
    ensures Paired(Route(h, peer, packet, setup, env).host, log + RouteLog(h, peer, packet, setup, env), setup.crypto)
    ensures forall q :: Judged(h, Route(h, peer, packet, setup, env).host, RouteLog(h, peer, packet, setup, env), q)
  {
    var check := ProofCheck(h, peer, packet, setup, env);
    if check.None? {
      assert log + [] == log;
      QuietRoutePaired(h, peer, packet, setup, env, log);
    } else {
      CheckedRoutePaired(h, check.value, peer, packet, setup, env, log);
    }
  }

  lemma CheckedRoutePaired(h: Host, h1: Host, peer: Peer, packet: Packet, setup: Setup, env: Env, log: seq<PairingEvent>)
    requires Paired(h, log, setup.crypto) && ProofCheck(h, peer, packet, setup, env) == Some(h1)
    ensures var h', more := Route(h, peer, packet, setup, env).host, VerifyLog(h1, peer, packet.payload.proof, setup, env);
            Paired(h', log + more, setup.crypto) && forall q :: Judged(h, h', more, q)
  {
    var h2, h' := VerifyProof(h1, peer, packet.payload.proof, setup, env).0, Route(h, peer, packet, setup, env).host;
    forall q
      ensures Quiet(h, h1, q) && Quiet(h2, h', q)
    {
      RouteChecks(h, peer, packet, setup, env, q);
    }
    QuietPaired(h, h1, log, setup.crypto);
    VerifyPaired(h1, peer, packet.payload.proof, setup, env, log);
    BetweenPaired(h, h1, h2, h', log, VerifyLog(h1, peer, packet.payload.proof, setup, env), setup.crypto);
  }

  lemma JudgedBetween(h: Host, h1: Host, h2: Host, h3: Host, more: seq<PairingEvent>, q: Peer)
    requires Quiet(h, h1, q) && Judged(h1, h2, more, q) && Quiet(h2, h3, q)
    ensures Judged(h, h3, more, q)
  {
  }

  lemma QuietJudged(h: Host, h': Host, q: Peer)
    requires Quiet(h, h', q)
    ensures Judged(h, h', [], q)
  {
  }

  /** Up to routing, and after it, a poll is quiet. */
  lemma PollQuiet(b: Backend, i: PollInput, setup: Setup, q: Peer)
    ensures Handles(b, i) ==> Quiet(b.host, Routing(b, i), q)
    ensures if Routes(b, i) then Quiet(RoutedOf(b, i, setup).host, Poll(b, i, setup).backend.host, q)
            else Quiet(b.host, Poll(b, i, setup).backend.host, q)
  {
    PollPhases(b, i, setup);
    FlushQuiet(b, i.before, q);
    if Handles(b, i) {
      ScreeningQuiet(Screening(b, i), i.received.peer, i.received.datagram, q);
      QuietThen(b.host, Screening(b, i), Routing(b, i), q);
      if Routes(b, i) && RoutedOf(b, i, setup).result.Ok? {
        AnsweringKeepsSessions(b, i, setup);
        FlushQuiet(BeforeLastFlush(b, i, setup), i.after, q);
        QuietThen(RoutedOf(b, i, setup).host, BeforeLastFlush(b, i, setup).host, Poll(b, i, setup).backend.host, q);
      }
    }
  }

  lemma PollPaired(b: Backend, i: PollInput, setup: Setup, log: seq<PairingEvent>)
    requires Paired(b.host, log, setup.crypto)
    ensures Paired(Poll(b, i, setup).backend.host, log + StepLog(b, PollStep(i), setup), setup.crypto)
    ensures forall q :: Judged(b.host, Poll(b, i, setup).backend.host, StepLog(b, PollStep(i), setup), q)
  {
    var h' := Poll(b, i, setup).backend.host;
    if Routes(b, i) {
      var h1, h2, more := Routing(b, i), RoutedOf(b, i, setup).host, StepLog(b, PollStep(i), setup);
      forall q
        ensures Quiet(b.host, h1, q) && Quiet(h2, h', q)
      {
        PollQuiet(b, i, setup, q);
      }
      QuietPaired(b.host, h1, log, setup.crypto);
      RoutePaired(h1, i.received.peer, Screened(Screening(b, i), i.received.peer, i.received.datagram).value, setup, i.env, log);
      BetweenPaired(b.host, h1, h2, h', log, more, setup.crypto);
    } else {
      assert log + [] == log;
      forall q
        ensures Quiet(b.host, h', q) && Judged(b.host, h', [], q)
      {
        PollQuiet(b, i, setup, q);
        QuietJudged(b.host, h', q);
      }
      QuietPaired(b.host, h', log, setup.crypto);
    }
  }

  lemma StepPaired(b: Backend, step: Step, setup: Setup, log: seq<PairingEvent>)
    requires Paired(b.host, log, setup.crypto)
    ensures Paired(Take(b, step, setup).host, log + StepLog(b, step, setup), setup.crypto)
    ensures forall q :: Judged(b.host, Take(b, step, setup).host, StepLog(b, step, setup), q)
  {
    match step {
      case PollStep(i) => PollPaired(b, i, setup, log);
      case IssueStep(peer, env) => IssuePaired(b.host, peer, env, log, setup.crypto);
      case _ =>
        assert log + [] == log;
        forall q
          ensures Quiet(b.host, Take(b, step, setup).host, q) && Judged(b.host, Take(b, step, setup).host, [], q)
        {
          QuietStep(b, step, setup, q);
          QuietJudged(b.host, Take(b, step, setup).host, q);
        }
        QuietPaired(b.host, Take(b, step, setup).host, log, setup.crypto);
    }
  }

  lemma QuietStep(b: Backend, step: Step, setup: Setup, q: Peer)
    requires !step.PollStep? && !step.IssueStep?
    ensures Quiet(b.host, Take(b, step, setup).host, q)
  {
    match step {
      case FlushStep(fates) => FlushQuiet(b, fates, q);
      case MediaStep(packets, video, order) =>
      case _ => HostStepQuiet(b.host, step, setup, q);
    }
  }

  lemma {:induction false} RunPaired(init: Env, steps: seq<Step>, setup: Setup, i: nat)
    requires i <= |steps|
    ensures Paired(At(init, steps, setup, i).host, PairingLog(init, steps, setup, i), setup.crypto)
  {
    if i == 0 {
      var log := PairingLog(init, steps, setup, 0);
      assert log[..0] == [];
    } else {
      RunPaired(init, steps, setup, i - 1);
      AtNext(init, steps, setup, i - 1);
      StepPaired(At(init, steps, setup, i - 1), steps[i - 1], setup, PairingLog(init, steps, setup, i - 1));
    }
  }

  // ---------------------------------------------------------------------------------------------
  // What runs guarantee
  // ---------------------------------------------------------------------------------------------

  /** Nothing after event `i` and before event `j` touches the peer's challenge or the code. */
  ghost predicate Untouched(log: seq<PairingEvent>, p: Peer, i: nat, j: nat) {
    forall k :: i < k < j && k < |log| ==> (log[k].Issued? || log[k].Failed?) && log[k].peer != p
  }

  /** The event that issued what a peer may answer. */
  lemma {:induction false} IssueOf(log: seq<PairingEvent>, p: Peer, crypto: Crypto) returns (i: nat)
    requires AllInOrder(log, crypto) && Outstanding(log, p).Some?
    ensures i < |log| && log[i].Issued? && log[i].peer == p && log[i].challenge == Outstanding(log, p).value
    ensures Some(log[i].under) == CurrentCode(log) && log[i].challenge.expiresAtMs <= log[i].under.expiresMs
    ensures Untouched(log, p, i, |log|)
  {
    var last := log[|log| - 1];
    if last.Issued? && last.peer == p {
      i := |log| - 1;
    } else {
      i := IssueOf(log[..|log| - 1], p, crypto);
    }
  }

  /** Every prefix of an orderly log is orderly. */
  lemma {:induction false} InOrderAt(log: seq<PairingEvent>, crypto: Crypto, j: nat)
    requires AllInOrder(log, crypto) && j < |log|
    ensures AllInOrder(log[..j], crypto) && InOrder(log[..j], log[j], crypto)
    decreases |log|
  {
    var rest := log[..|log| - 1];
    if j < |rest| {
      InOrderAt(rest, crypto, j);
      assert rest[..j] == log[..j];
    }
  }

  predicate Spends(e: PairingEvent) {
    e.Failed? || e.Succeeded?
  }

  /** In every run, a challenge some session holds was issued to that very peer, under the code now
      current, since when neither the code nor the peer's challenge changed; it expires no later than
      the code. */
  lemma HeldChallenges(init: Env, steps: seq<Step>, setup: Setup, n: nat, p: Peer) returns (i: nat)
    requires n <= |steps| && ChallengeIn(At(init, steps, setup, n).host, p).Some?
    ensures var log, h := PairingLog(init, steps, setup, n), At(init, steps, setup, n).host;
            && i < |log|
            && log[i] == Issued(p, ChallengeIn(h, p).value, CodeOf(h))
            && ChallengeIn(h, p).value.expiresAtMs <= h.codeExpiresMs
            && Untouched(log, p, i, |log|)
  {
    RunPaired(init, steps, setup, n);
    assert Backed(At(init, steps, setup, n).host, PairingLog(init, steps, setup, n), p);
    i := IssueOf(PairingLog(init, steps, setup, n), p, setup.crypto);
  }

  /** In every run, a challenge spent on a proof was issued to that very peer under the code current when
      it was spent, and nothing touched it in between; a success is a proof of that code and that salt,
      before both expired. */
  lemma SpentChallenges(init: Env, steps: seq<Step>, setup: Setup, n: nat, j: nat) returns (i: nat)
    requires n <= |steps| && j < |PairingLog(init, steps, setup, n)| && Spends(PairingLog(init, steps, setup, n)[j])
    ensures var log := PairingLog(init, steps, setup, n);
            && i < j
            && log[i].Issued? && log[i].peer == log[j].peer && log[i].challenge == log[j].challenge
            && Untouched(log, log[j].peer, i, j)
            && (log[j].Succeeded? ==>
                  && log[j].proof == setup.crypto.proof(log[i].under.digits, log[j].challenge.salt)
                  && log[j].ms <= log[j].challenge.expiresAtMs <= log[i].under.expiresMs)
  {
    var log := PairingLog(init, steps, setup, n);
    RunPaired(init, steps, setup, n);
    InOrderAt(log, setup.crypto, j);
    i := IssueOf(log[..j], log[j].peer, setup.crypto);
    assert forall k :: i < k < j ==> log[..j][k] == log[k];
  }

  /** No challenge is spent twice: two spendings have different issues, the later one's after the
      earlier spending; and after a success nothing issued before it can be spent. */
  lemma SpentOnce(init: Env, steps: seq<Step>, setup: Setup, n: nat, j: nat, j': nat) returns (i: nat, i': nat)
    requires n <= |steps| && j < j' < |PairingLog(init, steps, setup, n)|
    requires Spends(PairingLog(init, steps, setup, n)[j]) && Spends(PairingLog(init, steps, setup, n)[j'])
    ensures var log := PairingLog(init, steps, setup, n);
            && i < j && i' < j' && i != i'
            && log[i].Issued? && log[i].peer == log[j].peer && log[i].challenge == log[j].challenge
            && log[i'].Issued? && log[i'].peer == log[j'].peer && log[i'].challenge == log[j'].challenge
            && (log[j].peer == log[j'].peer || log[j].Succeeded? ==> j < i')
  {
    i := SpentChallenges(init, steps, setup, n, j);
    i' := SpentChallenges(init, steps, setup, n, j');
    SpentApart(PairingLog(init, steps, setup, n), i, j, i', j');
  }

  lemma SpentApart(log: seq<PairingEvent>, i: nat, j: nat, i': nat, j': nat)
    requires i < j < j' < |log| && i' < j'
    requires log[i].Issued? && log[i'].Issued? && Spends(log[j]) && Spends(log[j'])
    requires log[i].peer == log[j].peer && log[i'].peer == log[j'].peer
    requires Untouched(log, log[j'].peer, i', j')
    ensures i != i' && (log[j].peer == log[j'].peer || log[j].Succeeded? ==> j < i')
  {
    if j > i' {
      assert (log[j].Issued? || log[j].Failed?) && log[j].peer != log[j'].peer;
    }
  }

  /** A session comes to count as verified only by a success of that very peer in that step. */
  lemma VerifiedBySuccess(init: Env, steps: seq<Step>, setup: Setup, n: nat, p: Peer)
    requires n < |steps|
    requires Verified(At(init, steps, setup, n + 1).host, p) && !Verified(At(init, steps, setup, n).host, p)
    ensures var more := StepLog(At(init, steps, setup, n), steps[n], setup);
            more != [] && more[|more| - 1].Succeeded? && more[|more| - 1].peer == p
  {
    RunPaired(init, steps, setup, n);
    AtNext(init, steps, setup, n);
    StepPaired(At(init, steps, setup, n), steps[n], setup, PairingLog(init, steps, setup, n));
    assert Judged(At(init, steps, setup, n).host, At(init, steps, setup, n + 1).host, StepLog(At(init, steps, setup, n), steps[n], setup), p);
  }

  /** No session ever counts more than five attempts. */
  lemma {:induction false} AttemptsBounded(init: Env, steps: seq<Step>, setup: Setup, n: nat, p: Peer)
    requires n <= |steps|
    ensures Spare(At(init, steps, setup, n).host, p)
  {
    if n > 0 {
      AttemptsBounded(init, steps, setup, n - 1, p);
      RunPaired(init, steps, setup, n - 1);
      AtNext(init, steps, setup, n - 1);
      StepPaired(At(init, steps, setup, n - 1), steps[n - 1], setup, PairingLog(init, steps, setup, n - 1));
      assert Judged(At(init, steps, setup, n - 1).host, At(init, steps, setup, n).host, StepLog(At(init, steps, setup, n - 1), steps[n - 1], setup), p);
    }
  }
}
