/** Who gets media: every peer that is approved and secure when the packets are queued, and no other. */
module MediaRuns {
  import opened Transport
  import opened Outbound
  import opened Sessions
  import opened Router
  import opened Runtime
  import opened HostRun

  /** The packets of a queued batch that go to a peer, in order. */
  function PacketsFor(items: seq<Outgoing<Body>>, p: Peer): seq<Packet> {
    if items == [] then []
    else
      var last := items[|items| - 1];
      PacketsFor(items[..|items| - 1], p) + if last.peer == p then [last.packet] else []
  }

  predicate MayWatch(h: Host, p: Peer) {
    IsSecure(h.sessions, p) && h.sessions[p].permission == Approved
  }

  /** How often an order lists a peer. */
  function Listed(order: seq<Peer>, p: Peer): nat {
    if order == [] then 0
    else Listed(order[..|order| - 1], p) + if order[|order| - 1] == p then 1 else 0
  }

  function Times(packets: seq<Packet>, n: nat): seq<Packet> {
    if n == 0 then [] else Times(packets, n - 1) + packets
  }

  lemma {:induction false} PacketsThen(first: seq<Outgoing<Body>>, more: seq<Outgoing<Body>>, p: Peer)
    ensures PacketsFor(first + more, p) == PacketsFor(first, p) + PacketsFor(more, p)
  {
    if more == [] {
      assert first + more == first;
    } else {
      PacketsThen(first, more[..|more| - 1], p);
      assert (first + more)[..|first + more| - 1] == first + more[..|more| - 1];
    }
  }

  lemma {:induction false} AddressedTo(peer: Peer, packets: seq<Packet>, p: Peer)
    ensures PacketsFor(Addressed(peer, packets), p) == if p == peer then packets else []
  {
    if packets != [] {
      var n := |packets| - 1;
      AddressedTo(peer, packets[..n], p);
      assert Addressed(peer, packets)[..n] == Addressed(peer, packets[..n]);
      assert packets == packets[..n] + [packets[n]];
    }
  }

  lemma MediaNext(peers: seq<Peer>, last: Peer, packets: seq<Packet>, p: Peer)
    ensures PacketsFor(MediaFor(peers + [last], packets), p) == PacketsFor(MediaFor(peers, packets), p) + if p == last then packets else []
  {
    assert (peers + [last])[..|peers|] == peers;
    PacketsThen(MediaFor(peers, packets), Addressed(last, packets), p);
    AddressedTo(last, packets, p);
  }

  lemma {:induction false} MediaOnlyFor(h: Host, order: seq<Peer>, packets: seq<Packet>, p: Peer)
    ensures PacketsFor(MediaFor(MediaPeers(h, order), packets), p) == if MayWatch(h, p) then Times(packets, Listed(order, p)) else []
  {
    if order != [] {
      var rest, last := order[..|order| - 1], order[|order| - 1];
      var peers := MediaPeers(h, rest);
      MediaOnlyFor(h, rest, packets, p);
      if MayWatch(h, last) {
        assert MediaPeers(h, order) == peers + [last];
        MediaNext(peers, last, packets, p);
        assert Times(packets, Listed(rest, p)) + [] == Times(packets, Listed(rest, p));
      } else {
        assert MediaPeers(h, order) == peers + [];
        assert peers + [] == peers;
      }
    }
  }

  lemma {:induction false} PacketsTo(items: seq<Outgoing<Body>>, k: nat)
    requires k < |items|
    ensures PacketsFor(items, items[k].peer) != []
  {
    if k < |items| - 1 {
      PacketsTo(items[..|items| - 1], k);
    }
  }

  lemma OnceThrough(packets: seq<Packet>)
    ensures Times(packets, 1) == packets
  {
    assert Times(packets, 0) == [];
  }

  /** A call to queue media pushes a batch that goes only to peers that are approved and secure then: to
      each of them that is listed once, exactly the packets in order; and the batch is counted. */
  lemma MediaReaches(b: Backend, packets: seq<Packet>, video: bool, order: seq<Peer>, setup: Setup) returns (items: seq<Outgoing<Body>>)
    ensures var b' := Take(b, MediaStep(packets, video, order), setup);
            && b'.host == b.host && b'.queues == PushAll(b.queues, items)
            && b'.metrics == b.metrics.(queued := b.metrics.queued + |items|,
                                        queuedVideo := b.metrics.queuedVideo + if video then |items| else 0,
                                        queuedAudio := b.metrics.queuedAudio + if video then 0 else |items|)
    ensures forall k :: 0 <= k < |items| ==> MayWatch(b.host, items[k].peer)
    ensures forall p :: Listed(order, p) == 1 ==> PacketsFor(items, p) == if MayWatch(b.host, p) then packets else []
    ensures forall p :: !MayWatch(b.host, p) || Listed(order, p) == 0 ==> PacketsFor(items, p) == []
  {
    items := MediaFor(MediaPeers(b.host, order), packets);
    OnceThrough(packets);
    forall p
      ensures PacketsFor(items, p) == if MayWatch(b.host, p) then Times(packets, Listed(order, p)) else []
    {
      MediaOnlyFor(b.host, order, packets, p);
    }
    forall k | 0 <= k < |items|
      ensures MayWatch(b.host, items[k].peer)
    {
      PacketsTo(items, k);
    }
  }
}
