/**
 Three runs of the host, step by step. In one a peer pairs, is approved, becomes secure, and is then
 rejected: the notice of the rejection goes out in plain to a secure peer. In another the peer pairs
 again, under another key, once it is approved, and becomes secure under that one. In the third its
 confirmation fails, and then its input is let through in plain.
 */
module Example {
  import opened Bytes
  import opened Wrappers
  import opened Transport
  import opened Outbound
  import opened SessionWire
  import opened Sessions
  import opened Router
  import opened Runtime
  import opened HostRun
  import opened SecureRuns
  import opened AuthRuns
  import opened KeyRuns
  import opened PlainRuns

  const ZEROS16: Bytes16 := [0, 0, 0, 0, 0, 0, 0, 0, 0, 0, 0, 0, 0, 0, 0, 0]
  const ZEROS32: Bytes32 := ZEROS16 + ZEROS16

  /** A verifier that accepts every signature, and a key agreement that always succeeds. */
  function Accepting(): Setup {
    Setup(RequireApproval, {},
          Crypto(_ => ZEROS32, (_, _, _) => true, (_, _) => Some([]), (_, _) => [], _ => [3], [4], (_, _) => [5], _ => [6]))
  }

  ghost predicate AcceptsAll(setup: Setup) {
    && setup.policy == RequireApproval
    && (forall key, payload, signature :: setup.crypto.verify(key, payload, signature))
    && (forall secret, key :: setup.crypto.agree(secret, key).Some?)
  }

  /** The fates of a call that meets a socket that would block. */
  function Blocked(): seq<Fate> {
    [WouldBlock, WouldBlock, WouldBlock, WouldBlock, WouldBlock, WouldBlock, WouldBlock, WouldBlock]
  }

  function Moment(): Env {
    Env(0, 0, 0, [], 0, ZEROS32, 0, ZEROS32, ZEROS16, ZEROS32, [], [2], true)
  }

  /** A packet in plain, for a call that meets a socket that would block. */
  function Hearing(peer: Peer, kind: MessageKind, body: Body, env: Env, fates: seq<Fate>): PollInput {
    PollInput(Arrived(peer, Plain(TransportPacket(1, Control, kind, 0, body))), env, fates, fates, 0)
  }

  function Pairing(peer: Peer, name: Text, identity: seq<byte>, env: Env, fates: seq<Fate>): Step {
    PollStep(Hearing(peer, PairingRequest, PairingRequestBody(name, [], identity), env, fates))
  }

  function Confirming(peer: Peer, confirm: ClientKeyConfirm, env: Env, fates: seq<Fate>): Step {
    PollStep(Hearing(peer, SessionKeyConfirm, KeyConfirmBody(confirm), env, fates))
  }

  /** The confirmation is for the offer made at that moment, by the device of that name. */
  predicate Answers(confirm: ClientKeyConfirm, name: Text, env: Env) {
    env.ms == 0 && confirm.sessionId == env.sessionId && confirm.deviceId == name
  }

  /** The peer pairs without a proof, and is approved under the same name; the calls read the clock at the
      same moment. */
  ghost predicate PairsAndIsApproved(steps: seq<Step>, setup: Setup, env: Env, peer: Peer, name: Text, identity: seq<byte>, fates: seq<Fate>) {
    && AcceptsAll(setup) && name != [] && identity != [] && |steps| == 4
    && steps[0] == Pairing(peer, name, identity, env, fates)
    && steps[1] == ApproveStep(peer, name, ALL_ALLOWED, true, 2, env)
  }

  lemma EmptyFlush(b: Backend, fates: seq<Fate>)
    requires b.queues == NoPackets()
    ensures Flush(b, fates) == Flushed(b, true, [], [], [])
  {
    PopsUnlessEmpty(b.queues);
  }

  /** A packet in plain, let in by the screening, reaches the router on an idle backend. */
  lemma IdlePoll(b: Backend, peer: Peer, kind: MessageKind, body: Body, env: Env, fates: seq<Fate>, setup: Setup)
    requires b.queues == NoPackets()
    requires !IsSecure(b.host.sessions, peer)
    requires !RequiresSecureTransport(b.host.sessions, peer) || kind in {PairingRequest, SessionKeyConfirm}
    ensures var i := Hearing(peer, kind, body, env, fates);
            && Routes(b, i) && Routing(b, i) == b.host
            && RoutedOf(b, i, setup) == Route(b.host, peer, TransportPacket(1, Control, kind, 0, body), setup, env)
  {
    EmptyFlush(b, fates);
  }

  // ---------------------------------------------------------------------------------------------
  // The steps
  // ---------------------------------------------------------------------------------------------

  predicate Waiting(h: Host, peer: Peer, name: Text, identity: seq<byte>) {
    && peer in h.sessions
    && var s := h.sessions[peer];
    && s.permission == Pending && s.deviceKey == Some(identity) && s.secure.None? && s.watermark.None?
  }

  predicate Offering(h: Host, peer: Peer, name: Text, identity: seq<byte>, setup: Setup, env: Env) {
    && peer in h.sessions
    && var s := h.sessions[peer];
    && s.permission == Approved && s.deviceId == Some(name) && s.deviceKey == Some(identity) && s.secure.None?
    && s.permissions == ALL_ALLOWED && s.watermark.None?
    && s.pendingExchange == Some(PendingExchange(NewExchange(setup, env), env.ephemeralSecret))
  }

  lemma PairingRoute(h: Host, peer: Peer, packet: Packet, name: Text, identity: seq<byte>, setup: Setup, env: Env)
    requires h.sessions == map[] && h.attempts == map[] && setup.policy == RequireApproval
    requires packet.messageKind == PairingRequest && packet.payload == PairingRequestBody(name, [], identity) && identity != []
    ensures Waiting(Route(h, peer, packet, setup, env).host, peer, name, identity)
    ensures Route(h, peer, packet, setup, env).result.Ok? && Route(h, peer, packet, setup, env).result.value.outbound == []
    ensures !Secures(Route(h, peer, packet, setup, env).result.value.events)
  {
    assert PendingPeers(h.sessions) == {};
  }

  lemma PairingAgainRoute(h: Host, peer: Peer, packet: Packet, name: Text, identity: seq<byte>, other: seq<byte>, setup: Setup, env: Env)
    requires Offering(h, peer, name, identity, setup, env) && setup.policy == RequireApproval
    requires packet.messageKind == PairingRequest && packet.payload == PairingRequestBody(name, [], other) && other != []
    ensures Offering(Route(h, peer, packet, setup, env).host, peer, name, other, setup, env)
    ensures Route(h, peer, packet, setup, env).result.Ok? && Route(h, peer, packet, setup, env).result.value.outbound == []
    ensures !Secures(Route(h, peer, packet, setup, env).result.value.events)
  {
  }

  /** A poll whose packet is routed without an answer leaves what the routing leaves. */
  lemma QuietPoll(b: Backend, peer: Peer, kind: MessageKind, body: Body, env: Env, fates: seq<Fate>, setup: Setup)
    requires b.queues == NoPackets() && !IsSecure(b.host.sessions, peer)
    requires !RequiresSecureTransport(b.host.sessions, peer) || kind in {PairingRequest, SessionKeyConfirm}
    requires var r := Route(b.host, peer, TransportPacket(1, Control, kind, 0, body), setup, env);
             r.result.Ok? && r.result.value.outbound == [] && !Secures(r.result.value.events)
    ensures var b' := Poll(b, Hearing(peer, kind, body, env, fates), setup).backend;
            b'.queues == NoPackets() && b'.host == Route(b.host, peer, TransportPacket(1, Control, kind, 0, body), setup, env).host
  {
    var i := Hearing(peer, kind, body, env, fates);
    IdlePoll(b, peer, kind, body, env, fates, setup);
    EmptyFlush(b, fates);
    QuietAnswer(Arriving(b, i).(host := RoutedOf(b, i, setup).host), peer, RoutedOf(b, i, setup).result.value, 0, env);
    EmptyFlush(BeforeLastFlush(b, i, setup), fates);
    PollPhases(b, i, setup);
  }

  lemma QuietAnswer(b: Backend, peer: Peer, o: Outcome, displays: nat, env: Env)
    requires o.outbound == [] && !Secures(o.events)
    ensures Answered(b, peer, o, displays, env).0.queues == b.queues && Answered(b, peer, o, displays, env).0.host == b.host
  {
  }

  lemma ApprovedNotified(b: Backend, peer: Peer, name: Text, identity: seq<byte>, setup: Setup, env: Env)
    requires b.queues == NoPackets() && Waiting(b.host, peer, name, identity)
    ensures var b' := Take(b, ApproveStep(peer, name, ALL_ALLOWED, true, 2, env), setup);
            b'.queues == NoPackets() && Offering(b'.host, peer, name, identity, setup, env)
  {
  }

  lemma ConfirmationHolds(s: Session, confirm: ClientKeyConfirm, name: Text, identity: seq<byte>, setup: Setup, env: Env)
    requires AcceptsAll(setup) && Answers(confirm, name, env)
    requires s.deviceId == Some(name) && s.deviceKey == Some(identity)
    requires s.pendingExchange == Some(PendingExchange(NewExchange(setup, env), env.ephemeralSecret))
    ensures ConfirmsExchange(s, confirm, setup, env)
  {
  }

  lemma ConfirmingRoute(h: Host, peer: Peer, packet: Packet, confirm: ClientKeyConfirm, name: Text, identity: seq<byte>, setup: Setup, env: Env)
    requires Offering(h, peer, name, identity, setup, env)
    requires AcceptsAll(setup) && Answers(confirm, name, env)
    requires packet.messageKind == SessionKeyConfirm && packet.payload == KeyConfirmBody(confirm)
    ensures IsSecure(Route(h, peer, packet, setup, env).host.sessions, peer)
  {
    ConfirmationHolds(Seen(h, peer, env).sessions[peer], confirm, name, identity, setup, env);
  }

  lemma Secured(b: Backend, peer: Peer, confirm: ClientKeyConfirm, name: Text, identity: seq<byte>, env: Env, fates: seq<Fate>, setup: Setup)
    requires b.queues == NoPackets() && Offering(b.host, peer, name, identity, setup, env)
    requires AcceptsAll(setup) && Answers(confirm, name, env)
    ensures IsSecure(Poll(b, Hearing(peer, SessionKeyConfirm, KeyConfirmBody(confirm), env, fates), setup).backend.host.sessions, peer)
  {
    var body := KeyConfirmBody(confirm);
    var i := Hearing(peer, SessionKeyConfirm, body, env, fates);
    IdlePoll(b, peer, SessionKeyConfirm, body, env, fates, setup);
    ConfirmingRoute(b.host, peer, TransportPacket(1, Control, SessionKeyConfirm, 0, body), confirm, name, identity, setup, env);
    PollPhases(b, i, setup);
    if RoutedOf(b, i, setup).result.Ok? {
      AnsweringKeepsSessions(b, i, setup);
      FlushKeys(BeforeLastFlush(b, i, setup), fates, peer);
    }
  }

  /** The session is as approved, with its offer spent. */
  predicate Unoffered(h: Host, peer: Peer) {
    && peer in h.sessions
    && var s := h.sessions[peer];
    && s.permission == Approved && s.permissions == ALL_ALLOWED && s.watermark.None? && s.pendingExchange.None? && s.secure.None?
  }

  lemma FailingRoute(h: Host, peer: Peer, packet: Packet, name: Text, identity: seq<byte>, setup: Setup, env: Env)
    requires Offering(h, peer, name, identity, setup, env)
    requires packet.messageKind == SessionKeyConfirm && packet.payload.KeyConfirmBody? && packet.payload.confirm.deviceId != name
    ensures Unoffered(Route(h, peer, packet, setup, env).host, peer) && Route(h, peer, packet, setup, env).result.Err?
  {
  }

  lemma ConfirmationFails(b: Backend, peer: Peer, confirm: ClientKeyConfirm, name: Text, identity: seq<byte>, env: Env, fates: seq<Fate>, setup: Setup)
    requires b.queues == NoPackets() && Offering(b.host, peer, name, identity, setup, env) && confirm.deviceId != name
    ensures var b' := Poll(b, Hearing(peer, SessionKeyConfirm, KeyConfirmBody(confirm), env, fates), setup).backend;
            b'.queues == NoPackets() && Unoffered(b'.host, peer)
  {
    var body := KeyConfirmBody(confirm);
    var i := Hearing(peer, SessionKeyConfirm, body, env, fates);
    IdlePoll(b, peer, SessionKeyConfirm, body, env, fates, setup);
    FailingRoute(b.host, peer, TransportPacket(1, Control, SessionKeyConfirm, 0, body), name, identity, setup, env);
    EmptyFlush(b, fates);
    PollPhases(b, i, setup);
  }

  lemma InputHeard(b: Backend, peer: Peer, env: Env, fates: seq<Fate>, setup: Setup)
    requires b.queues == NoPackets() && Unoffered(b.host, peer)
    ensures InPlainFrom(b, PollStep(Hearing(peer, KeyboardInput, InputBody(Keyboard, 0), env, fates)), setup, peer)
  {
    EmptyFlush(b, fates);
    PlainInputExactly(b, Hearing(peer, KeyboardInput, InputBody(Keyboard, 0), env, fates), setup);
  }

  // ---------------------------------------------------------------------------------------------
  // The runs
  // ---------------------------------------------------------------------------------------------

  lemma WaitingAfterOne(steps: seq<Step>, setup: Setup, env: Env, peer: Peer, name: Text, identity: seq<byte>, fates: seq<Fate>)
    requires PairsAndIsApproved(steps, setup, env, peer, name, identity, fates)
    ensures var b := At(env, steps, setup, 1);
            b.queues == NoPackets() && Waiting(b.host, peer, name, identity)
  {
    var body := PairingRequestBody(name, [], identity);
    AtNext(env, steps, setup, 0);
    PairingRoute(Start(env).host, peer, TransportPacket(1, Control, PairingRequest, 0, body), name, identity, setup, env);
    QuietPoll(Start(env), peer, PairingRequest, body, env, fates, setup);
  }

  lemma OfferingAfterTwo(steps: seq<Step>, setup: Setup, env: Env, peer: Peer, name: Text, identity: seq<byte>, fates: seq<Fate>)
    requires PairsAndIsApproved(steps, setup, env, peer, name, identity, fates)
    ensures var b := At(env, steps, setup, 2);
            b.queues == NoPackets() && Offering(b.host, peer, name, identity, setup, env)
  {
    WaitingAfterOne(steps, setup, env, peer, name, identity, fates);
    AtNext(env, steps, setup, 1);
    ApprovedNotified(At(env, steps, setup, 1), peer, name, identity, setup, env);
  }

  lemma SecureAfterThree(steps: seq<Step>, setup: Setup, env: Env, peer: Peer, name: Text, identity: seq<byte>, confirm: ClientKeyConfirm, fates: seq<Fate>)
    requires PairsAndIsApproved(steps, setup, env, peer, name, identity, fates)
    requires Answers(confirm, name, env) && steps[2] == Confirming(peer, confirm, env, fates)
    ensures IsSecure(At(env, steps, setup, 3).host.sessions, peer)
  {
    OfferingAfterTwo(steps, setup, env, peer, name, identity, fates);
    AtNext(env, steps, setup, 2);
    Secured(At(env, steps, setup, 2), peer, confirm, name, identity, env, fates, setup);
  }

  lemma OtherKeyAfterThree(steps: seq<Step>, setup: Setup, env: Env, peer: Peer, name: Text, identity: seq<byte>, other: seq<byte>, fates: seq<Fate>)
    requires PairsAndIsApproved(steps, setup, env, peer, name, identity, fates)
    requires other != [] && steps[2] == Pairing(peer, name, other, env, fates)
    ensures var b := At(env, steps, setup, 3);
            b.queues == NoPackets() && Offering(b.host, peer, name, other, setup, env)
  {
    var b, body := At(env, steps, setup, 2), PairingRequestBody(name, [], other);
    OfferingAfterTwo(steps, setup, env, peer, name, identity, fates);
    AtNext(env, steps, setup, 2);
    PairingAgainRoute(b.host, peer, TransportPacket(1, Control, PairingRequest, 0, body), name, identity, other, setup, env);
    QuietPoll(b, peer, PairingRequest, body, env, fates, setup);
  }

  lemma RejectionInPlain(b: Backend, peer: Peer, env: Env, setup: Setup)
    ensures SendsInPlain(b, RejectStep(peer, env), setup, peer)
  {
    var sent := StepEmissions(b, RejectStep(peer, env), setup);
    assert sent == Handed(peer, Notices(b.host, RejectStep(peer, env), setup), 1);
    assert sent[0].peer == peer && sent[0].wire.InPlain?;
  }

  /** So "all that is sent to a secure peer is sealed" fails: in this run, for the notice of a rejection. */
  lemma PlainToSecurePeer() returns (init: Env, steps: seq<Step>, setup: Setup, peer: Peer)
    ensures |steps| == 4 && steps[3] == RejectStep(peer, init)
    ensures var b := At(init, steps, setup, 3);
            IsSecure(b.host.sessions, peer) && SendsInPlain(b, steps[3], setup, peer)
  {
    init, setup, peer := Moment(), Accepting(), Peer(1, 1);
    var fates, confirm := Blocked(), ClientKeyConfirm(init.sessionId, [7], [8], [9]);
    steps := [Pairing(peer, [7], [1], init, fates), ApproveStep(peer, [7], ALL_ALLOWED, true, 2, init),
              Confirming(peer, confirm, init, fates), RejectStep(peer, init)];
    SecureAfterThree(steps, setup, init, peer, [7], [1], confirm, fates);
    RejectionInPlain(At(init, steps, setup, 3), peer, init, setup);
  }

  /** So "a session is secured only under the key it was approved with" fails: in this run. */
  lemma SecuredUnderAnotherKey() returns (init: Env, steps: seq<Step>, setup: Setup, peer: Peer)
    ensures |steps| == 4 && setup.policy == RequireApproval
    ensures IsApproved(At(init, steps, setup, 2).host, peer) && KeyIn(At(init, steps, setup, 2).host, peer) == Some([1])
    ensures !SameIdentity(At(init, steps, setup, 3).host, At(init, steps, setup, 4).host, peer)
    ensures KeyIn(At(init, steps, setup, 3).host, peer) == Some([2])
  {
    init, setup, peer := Moment(), Accepting(), Peer(1, 1);
    var fates, confirm := Blocked(), ClientKeyConfirm(init.sessionId, [7], [8], [9]);
    steps := [Pairing(peer, [7], [1], init, fates), ApproveStep(peer, [7], ALL_ALLOWED, true, 2, init),
              Pairing(peer, [7], [2], init, fates), Confirming(peer, confirm, init, fates)];
    OfferingAfterTwo(steps, setup, init, peer, [7], [1], fates);
    OtherKeyAfterThree(steps, setup, init, peer, [7], [1], [2], fates);
    AtNext(init, steps, setup, 3);
    Secured(At(init, steps, setup, 3), peer, confirm, [7], [2], init, fates, setup);
  }

  lemma InputAfterThree(steps: seq<Step>, setup: Setup, env: Env, peer: Peer, name: Text, identity: seq<byte>, confirm: ClientKeyConfirm, fates: seq<Fate>)
    requires PairsAndIsApproved(steps, setup, env, peer, name, identity, fates)
    requires confirm.deviceId != name && steps[2] == Confirming(peer, confirm, env, fates)
    requires steps[3] == PollStep(Hearing(peer, KeyboardInput, InputBody(Keyboard, 0), env, fates))
    ensures InPlainFrom(At(env, steps, setup, 3), steps[3], setup, peer)
  {
    OfferingAfterTwo(steps, setup, env, peer, name, identity, fates);
    AtNext(env, steps, setup, 2);
    ConfirmationFails(At(env, steps, setup, 2), peer, confirm, name, identity, env, fates, setup);
    InputHeard(At(env, steps, setup, 3), peer, env, fates, setup);
  }

  lemma OffersAfterTwo(steps: seq<Step>, setup: Setup, env: Env, peer: Peer, name: Text, identity: seq<byte>, fates: seq<Fate>)
    requires PairsAndIsApproved(steps, setup, env, peer, name, identity, fates)
    ensures Offers(At(env, steps, setup, 2).host, peer)
  {
    OfferingAfterTwo(steps, setup, env, peer, name, identity, fates);
  }

  /** So "input of a peer that was offered a key exchange is let through only under seal" fails: in this run. */
  lemma InputInPlain() returns (init: Env, steps: seq<Step>, setup: Setup, peer: Peer)
    ensures |steps| == 4 && setup.policy == RequireApproval
    ensures Offers(At(init, steps, setup, 2).host, peer) && InPlainFrom(At(init, steps, setup, 3), steps[3], setup, peer)
  {
    init, setup, peer := Moment(), Accepting(), Peer(1, 1);
    var fates, confirm := Blocked(), ClientKeyConfirm(init.sessionId, [6], [8], [9]);
    steps := [Pairing(peer, [7], [1], init, fates), ApproveStep(peer, [7], ALL_ALLOWED, true, 2, init),
              Confirming(peer, confirm, init, fates), PollStep(Hearing(peer, KeyboardInput, InputBody(Keyboard, 0), init, fates))];
    OffersAfterTwo(steps, setup, init, peer, [7], [1], fates);
    InputAfterThree(steps, setup, init, peer, [7], [1], confirm, fates);
  }
}
