/**
 What flushing and polling do, stated on the queues, the metrics, what is handed to the socket, and the
 events: the packets flushed are the queue's own, in its order; a poll reports and counts what came of it.
 */
module PollLaws {
  import opened Bytes
  import opened Wrappers
  import opened Transport
  import opened Outbound
  import opened SecureChannel
  import opened Sessions
  import opened Router
  import opened Runtime
  import opened HostRun
  import SecureRuns

  // ---------------------------------------------------------------------------------------------
  // Flushing
  // ---------------------------------------------------------------------------------------------

  /** What is handed to the socket is that packet, for that peer: under the peer's key if it is secure, and
      otherwise in plain. */
  predicate Carries(h: Host, e: Emission, item: Outgoing<Body>) {
    && e.peer == item.peer
    && if IsSecure(h.sessions, item.peer)
       then && e.wire.UnderSeal?
            && OpenPacket(SecureOf(h, item.peer).ciphers.outbound, e.wire.sealed, SecureOf(h, item.peer).codec.aad) == Some(Encoded(item.packet))
       else e.wire == InPlain(item.packet)
  }

  /** The first `n` packets to leave the queues, in the order they leave. */
  function Leaving(q: Queues<Body>, n: nat): seq<Outgoing<Body>>
    decreases n
  {
    if n == 0 || Popped(q).None? then [] else [Popped(q).value] + Leaving(AfterPop(q), n - 1)
  }

  /** How many packets a flush hands over when the socket meets it with these fates: it goes on after each
      that is taken, and stops at the first that is not, which is still handed over unless it could not be
      encoded or sealed. */
  function HandedOver(q: Queues<Body>, fates: seq<Fate>): nat
    decreases |fates|
  {
    if fates == [] || Popped(q).None? then 0
    else
      match fates[0]
      case Taken => 1 + HandedOver(AfterPop(q), fates[1..])
      case WouldBlock => 1
      case SocketFailed => 1
      case NotEncoded => 0
      case NotSealed => 0
  }

  ghost predicate CarriesAll(h: Host, emissions: seq<Emission>, items: seq<Outgoing<Body>>) {
    |emissions| == |items| && forall k :: 0 <= k < |items| ==> Carries(h, emissions[k], items[k])
  }

  lemma CarriesSame(h: Host, h': Host, emissions: seq<Emission>, items: seq<Outgoing<Body>>)
    requires CarriesAll(h', emissions, items) && forall p :: SecureRuns.SameKeys(h, h', p)
    ensures CarriesAll(h, emissions, items)
  {
    forall k | 0 <= k < |items|
      ensures Carries(h, emissions[k], items[k])
    {
      assert SecureRuns.SameKeys(h, h', items[k].peer);
    }
  }

  lemma FlushOneCarries(b: Backend, fate: Fate)
    ensures var one := FlushOne(b, fate);
            && CarriesAll(b.host, one.done.emissions, Leaving(b.queues, HandedOver(b.queues, [fate])))
            && (one.more <==> Popped(b.queues).Some? && fate == Taken)
            && (one.more ==> one.done.backend.queues == AfterPop(b.queues))
  {
  }

  lemma HandedFirst(q: Queues<Body>, fates: seq<Fate>)
    requires fates != []
    ensures HandedOver(q, fates) == if Popped(q).Some? && fates[0] == Taken then 1 + HandedOver(AfterPop(q), fates[1..]) else HandedOver(q, [fates[0]])
  {
  }

  lemma OneThen(h: Host, e: seq<Emission>, more: seq<Emission>, item: Outgoing<Body>, items: seq<Outgoing<Body>>)
    requires CarriesAll(h, e, [item]) && CarriesAll(h, more, items)
    ensures CarriesAll(h, e + more, [item] + items)
  {
  }

  /** Over a flush: what is handed to the socket are the queue's own packets, from its head on, in the order
      they leave it, each under its peer's key if the peer is secure. */
  lemma {:induction false} FlushCarries(b: Backend, fates: seq<Fate>)
    ensures CarriesAll(b.host, Flush(b, fates).emissions, Leaving(b.queues, HandedOver(b.queues, fates)))
    decreases |fates|, 1
  {
    if fates != [] {
      FlushOneCarries(b, fates[0]);
      HandedFirst(b.queues, fates);
      if FlushOne(b, fates[0]).more {
        TakenThenMore(b, fates);
      }
    }
  }

  lemma {:induction false} TakenThenMore(b: Backend, fates: seq<Fate>)
    requires fates != [] && FlushOne(b, fates[0]).more
    ensures CarriesAll(b.host, Flush(b, fates).emissions, Leaving(b.queues, HandedOver(b.queues, fates)))
    decreases |fates|, 0
  {
    var one := FlushOne(b, fates[0]).done;
    FlushOneCarries(b, fates[0]);
    HandedFirst(b.queues, fates);
    FlushCarries(one.backend, fates[1..]);
    forall p
      ensures SecureRuns.SameKeys(b.host, one.backend.host, p)
    {
      SecureRuns.FlushOneKeys(b, fates[0], p);
    }
    var rest, items := Flush(one.backend, fates[1..]).emissions, Leaving(one.backend.queues, HandedOver(one.backend.queues, fates[1..]));
    CarriesSame(b.host, one.backend.host, rest, items);
    assert Leaving(b.queues, 1) == [Popped(b.queues).value];
    OneThen(b.host, one.emissions, rest, Popped(b.queues).value, items);
    assert Flush(b, fates).emissions == one.emissions + rest;
  }

  /** A secure session with one more counter spent. */
  function Spent(s: Session): Session
    requires s.secure.Some?
  {
    var secure := s.secure.value;
    s.(secure := Some(secure.(codec := secure.codec.(sendCounter := (secure.codec.sendCounter + 1) % TWO_TO_THE_64))))
  }

  /** What one attempt of a flush does. A packet that leaves a secure peer's queue spends a counter of its
      session, unless it does not even encode; one that is sent is counted; one that meets a socket that
      would block goes back where it came from, which is counted and reported; any other failure loses it
      and ends the flush with an error. */
  lemma AttemptDoes(b: Backend, fate: Fate)
    ensures var r := FlushOne(b, fate);
            if Popped(b.queues).None? then !r.more && r.done.ok && r.done.backend == b && r.done.events == []
            else
              var item, b' := Popped(b.queues).value, r.done.backend;
              && (r.more <==> fate == Taken) && (r.done.ok <==> fate == Taken || fate == WouldBlock)
              && b'.host == (if fate != NotEncoded && item.peer in b.host.sessions && b.host.sessions[item.peer].secure.Some?
                             then b.host.(sessions := b.host.sessions[item.peer := Spent(b.host.sessions[item.peer])]) else b.host)
              && b'.queues == (if fate == WouldBlock then AfterPushFront(AfterPop(b.queues), item) else AfterPop(b.queues))
              && b'.metrics == b.metrics.(sent := b.metrics.sent + (if fate == Taken then 1 else 0),
                                          backpressure := b.metrics.backpressure + (if fate == WouldBlock then 1 else 0))
              && r.done.events == if fate == WouldBlock then [OutboundBackpressure(item.peer, b'.queues.Len())] else []
  {
  }

  // ---------------------------------------------------------------------------------------------
  // Polling
  // ---------------------------------------------------------------------------------------------

  /** A poll whose first flush fails reads nothing and reports nothing; one that reads nothing reports the
      flush; one that reads no packet fails. */
  lemma PollWithoutPacket(b: Backend, i: PollInput, setup: Setup)
    requires !(Flush(b, i.before).ok && i.received.Arrived?)
    ensures var r, f := Poll(b, i, setup), Flush(b, i.before);
            && r.backend == f.backend && r.emissions == f.emissions && r.routed.None? && r.input.None?
            && (r.ok <==> f.ok && i.received.Nothing?)
            && r.events == if r.ok then f.events else []
  {
  }

  /** A packet that does not pass the screening is counted as received, and reported as ignored. */
  lemma PollScreensOut(b: Backend, i: PollInput, setup: Setup)
    requires Handles(b, i) && Screened(Screening(b, i), i.received.peer, i.received.datagram).Err?
    ensures var r, f := Poll(b, i, setup), Flush(b, i.before);
            && r.ok && r.events == f.events + [PacketIgnored(i.received.peer, Screened(Screening(b, i), i.received.peer, i.received.datagram).error)]
            && r.emissions == f.emissions && r.routed.None? && r.input.None?
            && r.backend.queues == f.backend.queues
            && r.backend.metrics == f.backend.metrics.(received := f.backend.metrics.received + 1)
            && r.backend.host == AfterScreening(Screening(b, i), i.received.peer, i.received.datagram)
  {
    assert Flush(b, i.before).emissions + [] == Flush(b, i.before).emissions;
  }

  /** The screening: a sealed datagram must open; one in plain must not be of a secure peer, nor, from a
      peer that is to confirm a key exchange, of another kind than the three that pair and confirm. */
  lemma ScreeningDecides(h: Host, p: Peer, d: Datagram)
    ensures match d
            case Secure(sealed) => Screened(h, p, d) == (if Opened(h, p, sealed).Some? then Ok(Opened(h, p, sealed).value) else Err(SecureCheckFailed))
            case Plain(packet) =>
              Screened(h, p, d)
              == if p in h.sessions && h.sessions[p].secure.Some? then Err(PlaintextAfterSecure)
                 else if p in h.sessions && h.sessions[p].permission == Approved && h.sessions[p].pendingExchange.Some?
                         && packet.messageKind != PairingRequest && packet.messageKind != AuthResponse && packet.messageKind != SessionKeyConfirm
                 then Err(PlaintextWhileSecuring)
                 else Ok(packet)
  {
  }

  predicate Secured(events: seq<BackendEvent>) {
    exists k :: 0 <= k < |events| && events[k].SessionSecured?
  }

  function Number(events: seq<BackendEvent>, late: bool): nat {
    if events == [] then 0
    else
      var e := events[|events| - 1];
      Number(events[..|events| - 1], late)
      + if (late && e.PacketIgnored? && e.reason == LateInput) || (!late && e.PendingRateLimited?) then 1 else 0
  }

  lemma {:induction false} NumberIs(events: seq<BackendEvent>)
    ensures Number(events, true) == CountLate(events) && Number(events, false) == CountRateLimited(events)
  {
    if events != [] {
      NumberIs(events[..|events| - 1]);
    }
  }

  /** What a poll queues in answer to what routing gives: the answers, and, to a peer now secure, what
      displays there are, under the next sequence number. */
  function AnswersTo(o: Outcome, h: Host, p: Peer, i: PollInput): seq<Outgoing<Body>> {
    o.outbound + if Secured(o.events)
                 then [Outgoing(p, TransportPacket(h.nextSequence, Control, DisplayInfo, i.env.us, DisplayInfoBody(i.displays)))] else []
  }

  function EventsOf(o: Outcome, p: Peer, i: PollInput, answers: nat): seq<BackendEvent> {
    o.events + (if Secured(o.events) then [DisplayInfoQueued(p, i.displays)] else [])
    + if answers == 0 then [] else [OutboundQueued(p, answers)]
  }

  lemma AnsweredIs(b: Backend, p: Peer, o: Outcome, i: PollInput)
    ensures var (b', events) := Answered(b, p, o, i.displays, i.env);
            var answers := AnswersTo(o, b.host, p, i);
            && events == EventsOf(o, p, i, |answers|) && b'.queues == PushAll(b.queues, answers)
            && b'.metrics == b.metrics.(queued := b.metrics.queued + |answers|,
                                        rateLimited := b.metrics.rateLimited + Number(events, false),
                                        lateDropped := b.metrics.lateDropped + Number(events, true))
            && b'.host == if Secured(o.events) then b.host.(nextSequence := (b.host.nextSequence + 1) % TWO_TO_THE_64) else b.host
  {
    NumberIs(Answered(b, p, o, i.displays, i.env).1);
    assert o.events + [] == o.events && o.outbound + [] == o.outbound;
  }

  /** The backend with the answers queued and counted. */
  function Queued(b: Backend, host: Host, o: Outcome, p: Peer, i: PollInput): Backend {
    var answers := AnswersTo(o, host, p, i);
    var events := EventsOf(o, p, i, |answers|);
    Backend(if Secured(o.events) then host.(nextSequence := (host.nextSequence + 1) % TWO_TO_THE_64) else host,
            PushAll(b.queues, answers),
            b.metrics.(queued := b.metrics.queued + |answers|, rateLimited := b.metrics.rateLimited + Number(events, false),
                       lateDropped := b.metrics.lateDropped + Number(events, true)))
  }

  /** When routing fails, so does the poll, with nothing reported; otherwise the answers are queued and
      flushed, and what routing and the flush report is returned, unless the flush fails. */
  predicate Concludes(r: Polled, b: Backend, p: Peer, routed: Routed, i: PollInput) {
    && r.input == routed.input
    && if routed.result.Err? then !r.ok && r.events == [] && r.backend == b.(host := routed.host) && r.emissions == []
       else
         var o, b2 := routed.result.value, Queued(b, routed.host, routed.result.value, p, i);
         var g := Flush(b2, i.after);
         && r.backend == g.backend && (r.ok <==> g.ok) && r.emissions == g.emissions
         && r.events == if g.ok then EventsOf(o, p, i, |AnswersTo(o, routed.host, p, i)|) + g.events else []
  }

  lemma CompletedConcludes(b: Backend, p: Peer, packet: Packet, routed: Routed, i: PollInput)
    ensures Concludes(Completed(b, p, packet, routed, i), b, p, routed, i)
  {
    if routed.result.Ok? {
      AnsweredIs(b.(host := routed.host), p, routed.result.value, i);
      assert Answered(b.(host := routed.host), p, routed.result.value, i.displays, i.env).0 == Queued(b, routed.host, routed.result.value, p, i);
    }
  }

  /** The backend after the first flush and the screening, with the arrival counted. */
  function Heard(b: Backend, i: PollInput): Backend
    requires i.received.Arrived?
  {
    var f := Flush(b, i.before).backend;
    Backend(AfterScreening(f.host, i.received.peer, i.received.datagram), f.queues, f.metrics.(received := f.metrics.received + 1))
  }

  /** A poll that routes a packet counts it as received, and puts what the first flush did in front. */
  lemma PollRoutesAndAnswers(b: Backend, i: PollInput, setup: Setup) returns (r: Polled)
    requires Routes(b, i)
    ensures Concludes(r, Heard(b, i), i.received.peer, RoutedOf(b, i, setup), i)
    ensures Poll(b, i, setup) == Behind(Flush(b, i.before), r)
  {
    var packet := Screened(Screening(b, i), i.received.peer, i.received.datagram).value;
    PollRoutes(b, i, setup);
    r := Completed(Arriving(b, i), i.received.peer, packet, RoutedOf(b, i, setup), i);
    CompletedConcludes(Arriving(b, i), i.received.peer, packet, RoutedOf(b, i, setup), i);
    assert Arriving(b, i) == Heard(b, i);
    BehindIs(Flush(b, i.before), r);
  }

  function Behind(f: Flushed, r: Polled): Polled {
    r.(events := if r.ok then f.events + r.events else [], emissions := f.emissions + r.emissions, seals := f.seals + r.seals)
  }

  lemma BehindIs(f: Flushed, r: Polled)
    requires r.ok || r.events == []
    ensures AfterFlush(f, r) == Behind(f, r)
  {
  }
}
