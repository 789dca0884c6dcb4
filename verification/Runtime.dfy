/**
 The host backend runtime: polling the socket, deciding what may be routed in plain and what must
 arrive sealed, and flushing the outbound queues. The socket is an input: what arrived, and the fate
 each send would meet.
 */
module Runtime {
  import opened Bytes
  import opened Wrappers
  import opened Transport
  import opened Outbound
  import opened SecureChannel
  import opened Sessions
  import opened Router

  const OUTBOUND_FLUSH_BUDGET: nat := 8

  datatype Metrics = Metrics(
    received: nat,
    queued: nat,
    queuedVideo: nat,
    queuedAudio: nat,
    sent: nat,
    backpressure: nat,
    rateLimited: nat,
    lateDropped: nat)

  const NO_METRICS: Metrics := Metrics(0, 0, 0, 0, 0, 0, 0, 0)

  datatype Backend = Backend(host: Host, queues: Queues<Body>, metrics: Metrics)

  /** What happens to one packet of a flush: the socket takes it, would block or fails, or the packet
      does not encode, or the cipher refuses it. */
  datatype Fate = Taken | WouldBlock | SocketFailed | NotEncoded | NotSealed

  /** What is handed to the socket. */
  datatype Wire = InPlain(packet: Packet) | UnderSeal(sealed: Sealed)

  datatype Emission = Emission(peer: Peer, wire: Wire)

  /** A use of a counter under a key. */
  datatype SealUse = SealUse(key: Key, counter: u64)

  datatype Flushed = Flushed(
    backend: Backend,
    ok: bool,
    events: seq<BackendEvent>,
    emissions: seq<Emission>,
    seals: seq<SealUse>)

  /** Was the packet sealed, and the counter spent, before its fate was met? */
  predicate Sealing(h: Host, peer: Peer, fate: Fate) {
    IsSecure(h.sessions, peer) && fate != NotEncoded
  }

  function HostAfterFlushing(h: Host, peer: Peer, fate: Fate): Host {
    if Sealing(h, peer, fate) then AfterSealing(h, peer) else h
  }

  function SealsOf(h: Host, peer: Peer, fate: Fate): seq<SealUse> {
    if Sealing(h, peer, fate) then [SealUse(SecureOf(h, peer).ciphers.outbound, SecureOf(h, peer).codec.sendCounter)] else []
  }

  function EmissionsOf(h: Host, item: Outgoing<Body>, fate: Fate): seq<Emission> {
    if fate == NotEncoded || fate == NotSealed then []
    else if IsSecure(h.sessions, item.peer) then [Emission(item.peer, UnderSeal(SealedFor(h, item.peer, item.packet)))]
    else [Emission(item.peer, InPlain(item.packet))]
  }

  /** One attempt: `more` says whether the flush goes on. */
  datatype Attempt = Attempt(done: Flushed, more: bool)

  function FlushOne(b: Backend, fate: Fate): Attempt {
    match Popped(b.queues)
    case None => Attempt(Flushed(b, true, [], [], []), false)
    case Some(item) =>
      var emissions, seals := EmissionsOf(b.host, item, fate), SealsOf(b.host, item.peer, fate);
      var host, queues, m := HostAfterFlushing(b.host, item.peer, fate), AfterPop(b.queues), b.metrics;
      match fate
      case Taken =>
        Attempt(Flushed(Backend(host, queues, m.(sent := m.sent + 1)), true, [], emissions, seals), true)
      case WouldBlock =>
        var restored := AfterPushFront(queues, item);
        Attempt(Flushed(Backend(host, restored, m.(backpressure := m.backpressure + 1)), true,
                        [OutboundBackpressure(item.peer, restored.Len())], emissions, seals), false)
      case _ => Attempt(Flushed(Backend(host, queues, m), false, [], emissions, seals), false)
  }

  /** A flush makes one attempt per fate, stopping at an empty queue, backpressure or an error. */
  function Flush(b: Backend, fates: seq<Fate>): (f: Flushed)
    ensures !f.ok ==> f.events == []
    decreases |fates|
  {
    if fates == [] then Flushed(b, true, [], [], [])
    else
      var one := FlushOne(b, fates[0]);
      if one.more then Continued(one.done, Flush(one.done.backend, fates[1..])) else one.done
  }

  /** A flush result with what an earlier, successful, part did put in front. */
  function Continued(f: Flushed, g: Flushed): Flushed {
    g.(events := if g.ok then f.events + g.events else [], emissions := f.emissions + g.emissions, seals := f.seals + g.seals)
  }

  function PushAll(q: Queues<Body>, items: seq<Outgoing<Body>>): Queues<Body> {
    if items == [] then q else AfterPush(PushAll(q, items[..|items| - 1]), items[|items| - 1])
  }

  // ---------------------------------------------------------------------------------------------
  // Polling
  // ---------------------------------------------------------------------------------------------

  datatype Datagram = Plain(packet: Packet) | Secure(sealed: Sealed)

  datatype Received = Nothing | Malformed | Arrived(peer: Peer, datagram: Datagram)

  /** What a poll reads from outside. */
  datatype PollInput = PollInput(received: Received, env: Env, before: seq<Fate>, after: seq<Fate>, displays: nat)

  /** The packet an arrival gives the router, or why it is ignored. */
  function Screened(h: Host, peer: Peer, d: Datagram): Result<Packet, Reason> {
    match d
    case Plain(packet) =>
      if IsSecure(h.sessions, peer) then Err(PlaintextAfterSecure)
      else if RequiresSecureTransport(h.sessions, peer)
              && packet.messageKind !in {PairingRequest, AuthResponse, SessionKeyConfirm} then Err(PlaintextWhileSecuring)
      else Ok(packet)
    case Secure(sealed) =>
      match Opened(h, peer, sealed)
      case None => Err(SecureCheckFailed)
      case Some(packet) => Ok(packet)
  }

  function AfterScreening(h: Host, peer: Peer, d: Datagram): Host {
    if d.Secure? then AfterOpening(h, peer, d.sealed) else h
  }

  predicate Secures(events: seq<BackendEvent>) {
    exists i :: 0 <= i < |events| && events[i].SessionSecured?
  }

  function CountRateLimited(events: seq<BackendEvent>): nat {
    if events == [] then 0
    else CountRateLimited(events[..|events| - 1]) + if events[|events| - 1].PendingRateLimited? then 1 else 0
  }

  predicate IsLate(e: BackendEvent) {
    e.PacketIgnored? && e.reason == LateInput
  }

  function CountLate(events: seq<BackendEvent>): nat {
    if events == [] then 0
    else CountLate(events[..|events| - 1]) + if IsLate(events[|events| - 1]) then 1 else 0
  }

  function Recorded(m: Metrics, events: seq<BackendEvent>): Metrics {
    m.(rateLimited := m.rateLimited + CountRateLimited(events), lateDropped := m.lateDropped + CountLate(events))
  }

  /** A newly secured session is told about the displays. */
  function WithDisplays(h: Host, peer: Peer, o: Outcome, displays: nat, env: Env): (Host, Outcome) {
    if !Secures(o.events) then (h, o)
    else (Advanced(h), Outcome(o.events + [DisplayInfoQueued(peer, displays)],
                               o.outbound + [Outgoing(peer, ControlPacket(h, DisplayInfo, DisplayInfoBody(displays), env))]))
  }

  function Enqueued(b: Backend, items: seq<Outgoing<Body>>): Backend {
    b.(queues := PushAll(b.queues, items), metrics := b.metrics.(queued := b.metrics.queued + |items|))
  }

  /** Routing succeeded: queue the answers and record the events. */
  function Answered(b: Backend, peer: Peer, o: Outcome, displays: nat, env: Env): (Backend, seq<BackendEvent>) {
    var (h, o1) := WithDisplays(b.host, peer, o, displays, env);
    var b1 := Enqueued(b.(host := h), o1.outbound);
    var events := o1.events + if o1.outbound == [] then [] else [OutboundQueued(peer, |o1.outbound|)];
    (b1.(metrics := Recorded(b1.metrics, events)), events)
  }

  datatype Polled = Polled(
    backend: Backend,
    ok: bool,
    events: seq<BackendEvent>,
    routed: Option<Packet>,
    input: Option<AcceptedInput>,
    emissions: seq<Emission>,
    seals: seq<SealUse>)

  /** Routing a packet that passed the screening, and flushing what it leaves queued. */
  function RouteArrival(b: Backend, peer: Peer, packet: Packet, i: PollInput, setup: Setup): Polled {
    Completed(b, peer, packet, Route(b.host, peer, packet, setup, i.env), i)
  }

  function Completed(b: Backend, peer: Peer, packet: Packet, routed: Routed, i: PollInput): Polled {
    var b1 := b.(host := routed.host);
    match routed.result
    case Err(_) => Polled(b1, false, [], Some(packet), routed.input, [], [])
    case Ok(o) =>
      var (b2, events) := Answered(b1, peer, o, i.displays, i.env);
      var g := Flush(b2, i.after);
      Polled(g.backend, g.ok, if g.ok then events + g.events else [], Some(packet), routed.input, g.emissions, g.seals)
  }

  function HandleArrival(b: Backend, peer: Peer, d: Datagram, i: PollInput, setup: Setup): Polled {
    var b1 := b.(metrics := b.metrics.(received := b.metrics.received + 1), host := AfterScreening(b.host, peer, d));
    match Screened(b.host, peer, d)
    case Err(reason) => Polled(b1, true, [PacketIgnored(peer, reason)], None, None, [], [])
    case Ok(packet) => RouteArrival(b1, peer, packet, i, setup)
  }

  /** A poll result with the flush before it put in front; an error loses all events. */
  function AfterFlush(f: Flushed, p: Polled): Polled {
    p.(events := if p.ok then f.events + p.events else [], emissions := f.emissions + p.emissions, seals := f.seals + p.seals)
  }

  function Poll(b: Backend, i: PollInput, setup: Setup): Polled {
    var f := Flush(b, i.before);
    if !f.ok then Polled(f.backend, false, [], None, None, f.emissions, f.seals)
    else
      match i.received
      case Nothing => Polled(f.backend, true, f.events, None, None, f.emissions, f.seals)
      case Malformed => Polled(f.backend, false, [], None, None, f.emissions, f.seals)
      case Arrived(peer, d) => AfterFlush(f, HandleArrival(f.backend, peer, d, i, setup))
  }

  /** The peers that get media: approved and secure, in listing order. */
  function MediaPeers(h: Host, order: seq<Peer>): seq<Peer> {
    if order == [] then []
    else
      var last := order[|order| - 1];
      MediaPeers(h, order[..|order| - 1])
      + if IsSecure(h.sessions, last) && h.sessions[last].permission == Approved then [last] else []
  }

  function Addressed(peer: Peer, packets: seq<Packet>): seq<Outgoing<Body>> {
    seq(|packets|, i requires 0 <= i < |packets| => Outgoing(peer, packets[i]))
  }

  function MediaFor(peers: seq<Peer>, packets: seq<Packet>): seq<Outgoing<Body>> {
    if peers == [] then [] else MediaFor(peers[..|peers| - 1], packets) + Addressed(peers[|peers| - 1], packets)
  }

  function QueueMedia(b: Backend, packets: seq<Packet>, video: bool, order: seq<Peer>): Backend {
    var items := MediaFor(MediaPeers(b.host, order), packets);
    var b1 := Enqueued(b, items);
    if video then b1.(metrics := b1.metrics.(queuedVideo := b1.metrics.queuedVideo + |items|))
    else b1.(metrics := b1.metrics.(queuedAudio := b1.metrics.queuedAudio + |items|))
  }

  /** Packets sent one by one, past the queues and in plain, when the first `taken` sends succeed: up to
      the first that fails. */
  function Handed(peer: Peer, packets: seq<Packet>, taken: nat): (r: seq<Emission>)
    ensures |r| == Min(|packets|, taken + 1)
    ensures forall i :: 0 <= i < |r| ==> r[i] == Emission(peer, InPlain(packets[i]))
  {
    seq(Min(|packets|, taken + 1), i requires 0 <= i < |packets| => Emission(peer, InPlain(packets[i])))
  }

  // ---------------------------------------------------------------------------------------------
  // The runtime
  // ---------------------------------------------------------------------------------------------

  class HostBackendRuntime {
    const setup: Setup
    const router: HostPacketRouter
    const outbound: OutboundPacketQueues<Body>
    var metrics: Metrics

    ghost predicate Valid() {
      router.setup == setup
    }

    ghost function State(): Backend
      reads this, router, router.registry, outbound
    {
      Backend(router.State(), outbound.State(), metrics)
    }

    constructor (setup: Setup, env: Env)
      ensures Valid() && fresh(router) && fresh(router.registry) && fresh(outbound)
      ensures this.setup == setup && State() == Backend(Host(map[], map[], 1, env.code, Later(env.ms, PAIRING_CODE_TTL_MS)), NoPackets(), NO_METRICS)
    {
      this.setup := setup;
      this.router := new HostPacketRouter(setup, env);
      this.outbound := new OutboundPacketQueues<Body>();
      this.metrics := NO_METRICS;
    }

    method FlushOutboundControl(fates: seq<Fate>)
      returns (ok: bool, events: seq<BackendEvent>, ghost emissions: seq<Emission>, ghost seals: seq<SealUse>)
      requires Valid() && |fates| == OUTBOUND_FLUSH_BUDGET
      modifies this, router, router.registry, outbound
      ensures Flushed(State(), ok, events, emissions, seals) == Flush(old(State()), fates)
    {
      ghost var before := State();
      ghost var soFar := Flushed(before, true, [], [], []);
      ContinuedNothing(Flush(before, fates));
      for attempt := 0 to OUTBOUND_FLUSH_BUDGET
        invariant soFar.ok && soFar.events == [] && soFar.backend == State()
        invariant Flush(before, fates) == Continued(soFar, Flush(State(), fates[attempt..]))
      {
        FlushUnfolds(soFar, State(), fates, attempt);
        ghost var one := FlushOne(State(), fates[attempt]);
        var more;
        more, ok, events := FlushAttempt(fates[attempt]);
        soFar := Continued(soFar, one.done);
        if !more {
          emissions, seals := soFar.emissions, soFar.seals;
          return;
        }
      }
      ContinuedNothing(Flushed(State(), true, [], [], []));
      ok, events, emissions, seals := true, [], soFar.emissions, soFar.seals;
      assert soFar.emissions + [] == soFar.emissions && soFar.seals + [] == soFar.seals;
    }

    method FlushAttempt(fate: Fate) returns (more: bool, ok: bool, events: seq<BackendEvent>)
      requires Valid()
      modifies this, router, router.registry, outbound
      ensures var one := FlushOne(old(State()), fate);
              one.more == more && one.done.ok == ok && one.done.events == events && one.done.backend == State()
      ensures more ==> ok && events == []
    {
      var popped := outbound.PopNext();
      if popped.None? {
        assert old(State()).queues == outbound.State() by {
          assert Popped(old(State()).queues).None?;
        }
        return false, true, [];
      }
      var handed := SendOne(popped.value, fate);
      if !handed {
        return false, false, [];
      }
      if fate == Taken {
        metrics := metrics.(sent := metrics.sent + 1);
        return true, true, [];
      }
      outbound.PushFront(popped.value);
      metrics := metrics.(backpressure := metrics.backpressure + 1);
      return false, true, [OutboundBackpressure(popped.value.peer, outbound.Len())];
    }

    /** Seals if the peer's session is secure, and hands the packet over unless that fails. */
    method SendOne(item: Outgoing<Body>, fate: Fate) returns (handed: bool)
      requires Valid()
      modifies router, router.registry
      ensures router.State() == HostAfterFlushing(old(router.State()), item.peer, fate)
      ensures handed <==> fate == Taken || fate == WouldBlock
    {
      if IsSecure(router.registry.sessions, item.peer) {
        var sealed := router.SealSecurePacket(item.peer, item.packet, fate != NotEncoded, fate != NotSealed);
        if sealed.None? {
          return false;
        }
      }
      return fate == Taken || fate == WouldBlock;
    }

    method EnqueueOutbound(items: seq<Outgoing<Body>>)
      modifies outbound
      ensures outbound.State() == PushAll(old(outbound.State()), items)
    {
      for i := 0 to |items|
        invariant outbound.State() == PushAll(old(outbound.State()), items[..i])
      {
        outbound.Push(items[i]);
        assert items[..i + 1][..i] == items[..i];
      }
      assert items[..|items|] == items;
    }

    method RecordRouteEvents(events: seq<BackendEvent>)
      modifies this
      ensures metrics == Recorded(old(metrics), events)
    {
      for i := 0 to |events|
        invariant metrics == Recorded(old(metrics), events[..i])
      {
        assert events[..i + 1][..i] == events[..i];
        if events[i].PendingRateLimited? {
          metrics := metrics.(rateLimited := metrics.rateLimited + 1);
        } else if IsLate(events[i]) {
          metrics := metrics.(lateDropped := metrics.lateDropped + 1);
        }
      }
      assert events[..|events|] == events;
    }

    /** Decides whether an arrival may be routed, opening it if it is sealed. */
    method Screen(peer: Peer, d: Datagram) returns (r: Result<Packet, Reason>)
      modifies router.registry
      ensures r == Screened(old(router.State()), peer, d)
      ensures router.State() == AfterScreening(old(router.State()), peer, d)
    {
      match d {
        case Plain(packet) =>
          if IsSecure(router.registry.sessions, peer) {
            return Err(PlaintextAfterSecure);
          }
          if RequiresSecureTransport(router.registry.sessions, peer)
             && packet.messageKind !in {PairingRequest, AuthResponse, SessionKeyConfirm} {
            return Err(PlaintextWhileSecuring);
          }
          return Ok(packet);
        case Secure(sealed) =>
          var plain := router.OpenSecurePacket(peer, sealed);
          if plain.None? {
            return Err(SecureCheckFailed);
          }
          return Ok(plain.value);
      }
    }

    method AddDisplays(peer: Peer, o: Outcome, displays: nat, env: Env) returns (r: Outcome)
      requires Valid()
      modifies router
      ensures (router.State(), r) == WithDisplays(old(router.State()), peer, o, displays, env)
    {
      if !Secures(o.events) {
        return o;
      }
      var packet := router.BuildControl(DisplayInfo, DisplayInfoBody(displays), env);
      return Outcome(o.events + [DisplayInfoQueued(peer, displays)], o.outbound + [Outgoing(peer, packet)]);
    }

    method QueueAnswers(items: seq<Outgoing<Body>>)
      requires Valid()
      modifies this`metrics, outbound
      ensures State() == Enqueued(old(State()), items)
    {
      EnqueueOutbound(items);
      metrics := metrics.(queued := metrics.queued + |items|);
    }

    /** Queues what routing answered, and records its events. */
    method Answer(peer: Peer, o: Outcome, displays: nat, env: Env) returns (events: seq<BackendEvent>)
      requires Valid()
      modifies this, router, outbound
      ensures (State(), events) == Answered(old(State()), peer, o, displays, env)
    {
      var answer := AddDisplays(peer, o, displays, env);
      QueueAnswers(answer.outbound);
      events := answer.events;
      if answer.outbound != [] {
        events := events + [OutboundQueued(peer, |answer.outbound|)];
      } else {
        assert events + [] == events;
      }
      RecordRouteEvents(events);
    }

    method RoutePacket(peer: Peer, packet: Packet, i: PollInput)
      returns (ok: bool, events: seq<BackendEvent>, ghost input: Option<AcceptedInput>,
               ghost emissions: seq<Emission>, ghost seals: seq<SealUse>)
      requires Valid() && |i.after| == OUTBOUND_FLUSH_BUDGET
      modifies this, router, router.registry, outbound
      ensures Polled(State(), ok, events, Some(packet), input, emissions, seals) == RouteArrival(old(State()), peer, packet, i, setup)
    {
      input := Route(router.State(), peer, packet, setup, i.env).input;
      var outcome := router.RoutePacket(peer, packet, i.env);
      if outcome.Err? {
        return false, [], input, [], [];
      }
      var answered := Answer(peer, outcome.value, i.displays, i.env);
      var flushed;
      ok, flushed, emissions, seals := FlushOutboundControl(i.after);
      events := if ok then answered + flushed else [];
    }

    method PollControl(i: PollInput)
      returns (ok: bool, events: seq<BackendEvent>, ghost routed: Option<Packet>, ghost input: Option<AcceptedInput>,
               ghost emissions: seq<Emission>, ghost seals: seq<SealUse>)
      requires Valid() && |i.before| == |i.after| == OUTBOUND_FLUSH_BUDGET
      modifies this, router, router.registry, outbound
      ensures Polled(State(), ok, events, routed, input, emissions, seals) == Poll(old(State()), i, setup)
    {
      routed, input := None, None;
      ok, events, emissions, seals := FlushOutboundControl(i.before);
      if !ok {
        return false, [], routed, input, emissions, seals;
      }
      match i.received {
        case Nothing =>
          return;
        case Malformed =>
          return false, [], routed, input, emissions, seals;
        case Arrived(peer, datagram) =>
          var answered;
          ghost var emitted, sealed;
          ok, answered, routed, input, emitted, sealed := ArriveFrom(peer, datagram, i);
          emissions, seals := emissions + emitted, seals + sealed;
          events := if ok then events + answered else [];
      }
    }

    method ArriveFrom(peer: Peer, datagram: Datagram, i: PollInput)
      returns (ok: bool, events: seq<BackendEvent>, ghost routed: Option<Packet>, ghost input: Option<AcceptedInput>,
               ghost emissions: seq<Emission>, ghost seals: seq<SealUse>)
      requires Valid() && |i.after| == OUTBOUND_FLUSH_BUDGET
      modifies this, router, router.registry, outbound
      ensures Polled(State(), ok, events, routed, input, emissions, seals) == HandleArrival(old(State()), peer, datagram, i, setup)
    {
      metrics := metrics.(received := metrics.received + 1);
      var screened := Screen(peer, datagram);
      if screened.Err? {
        return true, [PacketIgnored(peer, screened.error)], None, None, [], [];
      }
      routed := Some(screened.value);
      ok, events, input, emissions, seals := RoutePacket(peer, screened.value, i);
    }

    /** Sends packets at once, in plain, whatever the peer's session. */
    method SendNotices(peer: Peer, packets: seq<Packet>, taken: nat) returns (ok: bool, ghost emissions: seq<Emission>)
      ensures ok <==> |packets| <= taken
      ensures emissions == Handed(peer, packets, taken)
    {
      emissions := [];
      for i := 0 to |packets|
        invariant i <= taken
        invariant |emissions| == i && forall k :: 0 <= k < i ==> emissions[k] == Emission(peer, InPlain(packets[k]))
      {
        emissions := emissions + [Emission(peer, InPlain(packets[i]))];
        if i == taken {
          return false, emissions;
        }
      }
      return true, emissions;
    }

    method ApprovePeerAndNotify(peer: Peer, device: Text, permissions: Permissions, env: Env, taken: nat)
      returns (ok: bool, events: seq<BackendEvent>, ghost emissions: seq<Emission>)
      requires Valid()
      modifies router, router.registry
      ensures var (h, packets) := ApproveWithResponse(old(router.State()), peer, device, permissions, setup, env);
              router.State() == h && emissions == Handed(peer, packets, taken) && (ok <==> taken >= 2)
      ensures events == if ok then [SessionApproved(peer), PairingResultQueued(peer, true), SessionKeyExchangeQueued(peer, env.sessionId)] else []
    {
      var packets := router.ApprovePeerWithResponse(peer, device, permissions, env);
      ok, emissions := SendNotices(peer, packets, taken);
      events := if ok then [SessionApproved(peer), PairingResultQueued(peer, true), SessionKeyExchangeQueued(peer, env.sessionId)] else [];
    }

    method RejectPeerAndNotify(peer: Peer, env: Env, taken: nat)
      returns (ok: bool, events: seq<BackendEvent>, ghost emissions: seq<Emission>)
      requires Valid()
      modifies router, router.registry
      ensures var (h, packet) := RejectWithResponse(old(router.State()), peer, env);
              router.State() == h && emissions == Handed(peer, [packet], taken) && (ok <==> taken >= 1)
      ensures events == if ok then [SessionRejected(peer), PairingResultQueued(peer, false)] else []
    {
      var packet := router.RejectPeerWithResponse(peer, env);
      ok, emissions := SendNotices(peer, [packet], taken);
      events := if ok then [SessionRejected(peer), PairingResultQueued(peer, false)] else [];
    }

    method ChallengePeerAndNotify(peer: Peer, device: Text, permissions: Permissions, env: Env, taken: nat)
      returns (ok: bool, events: seq<BackendEvent>, ghost emissions: seq<Emission>)
      requires Valid()
      modifies router, router.registry
      ensures var (h, packet) := ChallengeTrusted(old(router.State()), peer, device, permissions, env);
              && router.State() == h
              && emissions == (if packet.Some? then Handed(peer, [packet.value], taken) else [])
              && (ok <==> packet.Some? && taken >= 1)
      ensures events == if ok then [AuthChallengeQueued(peer, env.challengeId)] else []
    {
      var packet := router.ChallengePeerWithResponse(peer, device, permissions, env);
      if packet.None? {
        return false, [], [];
      }
      ok, emissions := SendNotices(peer, [packet.value], taken);
      events := if ok then [AuthChallengeQueued(peer, env.challengeId)] else [];
    }

    method IssuePairingCodeChallenge(peer: Peer, env: Env, taken: nat)
      returns (ok: bool, events: seq<BackendEvent>, ghost emissions: seq<Emission>)
      requires Valid()
      modifies router, router.registry
      ensures var (h, issued) := IssueChallenge(old(router.State()), peer, env);
              && router.State() == h
              && emissions == (if issued.Some? then Handed(peer, [issued.value.1], taken) else [])
              && (ok <==> issued.Some? && taken >= 1)
              && events == (if ok then [PairingChallengeQueued(peer, issued.value.0)] else [])
    {
      var issued := router.PairingCodeChallengeWithResponse(peer, env);
      if issued.None? {
        return false, [], [];
      }
      ok, emissions := SendNotices(peer, [issued.value.1], taken);
      events := if ok then [PairingChallengeQueued(peer, issued.value.0)] else [];
    }

    method ListMediaPeers(order: seq<Peer>) returns (peers: seq<Peer>)
      ensures peers == MediaPeers(router.State(), order)
    {
      peers := [];
      for n := 0 to |order|
        invariant peers == MediaPeers(router.State(), order[..n])
      {
        assert order[..n + 1][..n] == order[..n];
        var peer := order[n];
        if IsSecure(router.registry.sessions, peer) && router.registry.sessions[peer].permission == Approved {
          peers := peers + [peer];
        }
      }
      assert order[..|order|] == order;
    }

    method QueueForPeers(peers: seq<Peer>, packets: seq<Packet>) returns (queued: nat)
      modifies outbound
      ensures outbound.State() == PushAll(old(outbound.State()), MediaFor(peers, packets))
      ensures queued == |MediaFor(peers, packets)|
    {
      queued := 0;
      for n := 0 to |peers|
        invariant outbound.State() == PushAll(old(outbound.State()), MediaFor(peers[..n], packets))
        invariant queued == |MediaFor(peers[..n], packets)|
      {
        assert peers[..n + 1][..n] == peers[..n];
        var batch := Addressed(peers[n], packets);
        PushAllTwice(old(outbound.State()), MediaFor(peers[..n], packets), batch);
        EnqueueOutbound(batch);
        queued := queued + |packets|;
      }
      assert peers[..|peers|] == peers;
    }

    method QueueMediaPackets(packets: seq<Packet>, video: bool, order: seq<Peer>) returns (queued: nat)
      requires Valid()
      modifies this, outbound
      ensures State() == QueueMedia(old(State()), packets, video, order)
      ensures queued == |MediaFor(MediaPeers(old(State()).host, order), packets)|
    {
      var peers := ListMediaPeers(order);
      queued := QueueForPeers(peers, packets);
      metrics := metrics.(queued := metrics.queued + queued);
      if video {
        metrics := metrics.(queuedVideo := metrics.queuedVideo + queued);
      } else {
        metrics := metrics.(queuedAudio := metrics.queuedAudio + queued);
      }
    }
  }

  lemma {:induction false} PushAllTwice(q: Queues<Body>, first: seq<Outgoing<Body>>, second: seq<Outgoing<Body>>)
    ensures PushAll(PushAll(q, first), second) == PushAll(q, first + second)
  {
    if second == [] {
      assert first + second == first;
    } else {
      PushAllTwice(q, first, second[..|second| - 1]);
      assert (first + second)[..|first + second| - 1] == first + second[..|second| - 1];
    }
  }

  lemma ContinuedNothing(g: Flushed)
    requires !g.ok ==> g.events == []
    ensures forall b :: Continued(Flushed(b, true, [], [], []), g) == g
  {
    assert [] + g.events == g.events && [] + g.emissions == g.emissions && [] + g.seals == g.seals;
  }

  /** One attempt of a flush that has come to its `n`-th fate. */
  lemma FlushUnfolds(soFar: Flushed, b: Backend, fates: seq<Fate>, n: nat)
    requires n < |fates| && soFar.ok && soFar.events == []
    ensures var one := FlushOne(b, fates[n]);
            && Continued(soFar, Flush(b, fates[n..]))
               == (if one.more then Continued(Continued(soFar, one.done), Flush(one.done.backend, fates[n + 1..])) else Continued(soFar, one.done))
            && Continued(soFar, one.done).events == one.done.events
            && Continued(soFar, one.done).backend == one.done.backend
            && Continued(soFar, one.done).ok == one.done.ok
  {
    assert fates[n..][0] == fates[n] && fates[n..][1..] == fates[n + 1..];
    var one := FlushOne(b, fates[n]);
    if one.more {
      ContinuedTwice(soFar, one.done, Flush(one.done.backend, fates[n + 1..]));
    }
  }

  lemma ContinuedTwice(f: Flushed, g: Flushed, h: Flushed)
    requires g.ok
    ensures Continued(f, Continued(g, h)) == Continued(Continued(f, g), h)
  {
    Append(f.events, g.events, h.events);
    Append(f.emissions, g.emissions, h.emissions);
    Append(f.seals, g.seals, h.seals);
  }
}
