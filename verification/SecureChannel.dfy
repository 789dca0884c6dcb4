/**
 The sealed datagram channel: key pairs, nonces, the send counter, the replay guard, and the `GLYE`
 wire form. Authenticated encryption is symbolic: a sealed text names its key, nonce, associated
 data and plaintext, and opens only under all of them.
 */
module SecureChannel {
  import opened Bytes
  import opened Wrappers
  import opened Replay

  // ---------------------------------------------------------------------------------------------
  // Directional keys
  // ---------------------------------------------------------------------------------------------

  /** A derived session key; derivation is one-way and collision free, so a key is its inputs. */
  datatype Key = Key(secret: seq<byte>, transcript: seq<byte>, direction: string)

  datatype CipherPair = CipherPair(outbound: Key, inbound: Key)

  function ForHost(secret: seq<byte>, transcript: seq<byte>): CipherPair {
    CipherPair(Key(secret, transcript, "host-to-client"), Key(secret, transcript, "client-to-host"))
  }

  function ForClient(secret: seq<byte>, transcript: seq<byte>): CipherPair {
    CipherPair(Key(secret, transcript, "client-to-host"), Key(secret, transcript, "host-to-client"))
  }

  /** A host's outbound key opens at a client exactly when both derived from the same secret and
      transcript, and likewise backwards; nothing a host sends opens at any host, nor client at client. */
  lemma DirectionsPair(secret: seq<byte>, transcript: seq<byte>, secret': seq<byte>, transcript': seq<byte>)
    ensures ForHost(secret, transcript).outbound == ForClient(secret', transcript').inbound
            <==> secret == secret' && transcript == transcript'
    ensures ForHost(secret, transcript).inbound == ForClient(secret', transcript').outbound
            <==> secret == secret' && transcript == transcript'
    ensures ForHost(secret, transcript).outbound != ForHost(secret', transcript').inbound
    ensures ForClient(secret, transcript).outbound != ForClient(secret', transcript').inbound
  {
    assert "host-to-client"[0] != "client-to-host"[0];
  }

  // ---------------------------------------------------------------------------------------------
  // Nonces and sealed texts
  // ---------------------------------------------------------------------------------------------

  const NONCE_PREFIX: seq<byte> := [71, 76, 89, 82] // "GLYR"

  function Nonce(counter: u64): (r: seq<byte>)
    ensures |r| == 12
  {
    NONCE_PREFIX + BigEndian(counter, 8)
  }

  lemma NonceInjective(a: u64, b: u64)
    requires Nonce(a) == Nonce(b)
    ensures a == b
  {
    FixedWidthRoundTrip(a, 8);
    FixedWidthRoundTrip(b, 8);
    assert Nonce(a)[4..] == BigEndian(a, 8);
    assert Nonce(b)[4..] == BigEndian(b, 8);
  }

  /** `Garbage` stands for every byte string that no honest party sealed. */
  datatype Ciphertext<P> =
    | Sealed(key: Key, nonce: seq<byte>, aad: seq<byte>, plaintext: P)
    | Garbage(bytes: seq<byte>)

  datatype SealedPacket<C> = SealedPacket(counter: u64, ciphertext: C)

  datatype ChannelError = Cipher | InvalidAuthenticationTag | ReplayDetected

  function SealPacket<P>(key: Key, counter: u64, aad: seq<byte>, plaintext: P): SealedPacket<Ciphertext<P>> {
    SealedPacket(counter, Sealed(key, Nonce(counter), aad, plaintext))
  }

  function OpenPacket<P>(key: Key, packet: SealedPacket<Ciphertext<P>>, aad: seq<byte>): Option<P> {
    match packet.ciphertext
    case Sealed(k, n, a, p) => if k == key && n == Nonce(packet.counter) && a == aad then Some(p) else None
    case Garbage(_) => None
  }

  // ---------------------------------------------------------------------------------------------
  // The codec: a wrapping 64-bit send counter and a receive guard
  // ---------------------------------------------------------------------------------------------

  const REPLAY_WINDOW: u64 := 4096

  datatype Codec = Codec(sendCounter: u64, guard: Window, aad: seq<byte>)

  function NewCodec(aad: seq<byte>): Codec {
    Codec(1, Empty(REPLAY_WINDOW), aad)
  }

  /** Every codec a session holds: its guard's counters fit 64 bits. */
  type LiveCodec = c: Codec | InU64(c.guard) ghost witness NewCodec([])

  function NextCounter(counter: u64): u64 {
    (counter + 1) % TWO_TO_THE_64
  }

  /** The counter advances whether or not the cipher then succeeds. */
  function AfterSeal(c: Codec): Codec {
    c.(sendCounter := NextCounter(c.sendCounter))
  }

  function OpenResult<P>(c: Codec, key: Key, packet: SealedPacket<Ciphertext<P>>): Result<P, ChannelError>
    requires InU64(c.guard)
  {
    match OpenPacket(key, packet, c.aad)
    case None => Err(InvalidAuthenticationTag)
    case Some(p) => if GuardAccepts(c.guard, packet.counter) then Ok(p) else Err(ReplayDetected)
  }

  function AfterOpen<P>(c: Codec, key: Key, packet: SealedPacket<Ciphertext<P>>): (r: Codec)
    requires InU64(c.guard)
    ensures InU64(r.guard)
  {
    if OpenResult(c, key, packet).Ok? then c.(guard := GuardRecord(c.guard, packet.counter)) else c
  }

  class SecureDatagramCodec {
    var sendCounter: u64
    const receiveGuard: ReplayGuard
    const aad: seq<byte>

    ghost predicate Valid()
      reads this, receiveGuard
    {
      receiveGuard.Valid()
    }

    ghost function State(): Codec
      reads this, receiveGuard
    {
      Codec(sendCounter, receiveGuard.State(), aad)
    }

    constructor (aad: seq<byte>)
      ensures Valid() && fresh(receiveGuard) && State() == NewCodec(aad)
    {
      this.sendCounter := 1;
      this.receiveGuard := new ReplayGuard(REPLAY_WINDOW);
      this.aad := aad;
    }

    /** `cipherOk` is whether the cipher accepts the plaintext's size. */
    method Seal<P>(key: Key, plaintext: P, cipherOk: bool) returns (r: Result<SealedPacket<Ciphertext<P>>, ChannelError>)
      requires Valid()
      modifies this
      ensures Valid() && State() == AfterSeal(old(State()))
      ensures r == if cipherOk then Ok(SealPacket(key, old(sendCounter), aad, plaintext)) else Err(Cipher)
    {
      var counter := sendCounter;
      sendCounter := NextCounter(sendCounter);
      if !cipherOk {
        return Err(Cipher);
      }
      return Ok(SealPacket(key, counter, aad, plaintext));
    }

    method Open<P>(key: Key, packet: SealedPacket<Ciphertext<P>>) returns (r: Result<P, ChannelError>)
      requires Valid()
      modifies receiveGuard
      ensures Valid() && State() == AfterOpen(old(State()), key, packet)
      ensures r == OpenResult(old(State()), key, packet)
    {
      var plaintext := OpenPacket(key, packet, aad);
      if plaintext.None? {
        return Err(InvalidAuthenticationTag);
      }
      var accepted := receiveGuard.Accept(packet.counter);
      if !accepted {
        return Err(ReplayDetected);
      }
      return Ok(plaintext.value);
    }
  }

  // ---------------------------------------------------------------------------------------------
  // Nonce reuse
  // ---------------------------------------------------------------------------------------------

  /** The counter used by the `i`-th seal of a codec, counting from zero. */
  function CounterOf(i: nat): u64 {
    (i + 1) % TWO_TO_THE_64
  }

  /** The first `n` seals of a codec use pairwise different nonces exactly when `n` is at most 2^64. */
  lemma NoncesDistinct(n: nat)
    ensures (forall i, j :: 0 <= i < j < n ==> Nonce(CounterOf(i)) != Nonce(CounterOf(j))) <==> n <= TWO_TO_THE_64
  {
    if n <= TWO_TO_THE_64 {
      forall i, j | 0 <= i < j < n
        ensures Nonce(CounterOf(i)) != Nonce(CounterOf(j))
      {
        if Nonce(CounterOf(i)) == Nonce(CounterOf(j)) {
          NonceInjective(CounterOf(i), CounterOf(j));
        }
      }
    } else {
      assert CounterOf(0) == CounterOf(TWO_TO_THE_64);
    }
  }

  // ---------------------------------------------------------------------------------------------
  // Runs: one sealing sender, one opening receiver, and a network that may do anything but seal
  // ---------------------------------------------------------------------------------------------

  datatype ChannelEvent<P> = Transmit(plaintext: P) | Receive(packet: SealedPacket<Ciphertext<P>>)

  datatype System<P> = System(
    sender: Codec,
    receiver: Codec,
    sent: seq<SealedPacket<Ciphertext<P>>>,
    delivered: seq<int>,        // counters, in order of delivery
    plaintexts: seq<P>)         // what was delivered, in the same order

  ghost function Step<P>(s: System<P>, key: Key, e: ChannelEvent<P>): System<P>
    requires InU64(s.receiver.guard)
  {
    match e
    case Transmit(p) =>
      s.(sender := AfterSeal(s.sender), sent := s.sent + [SealPacket(key, s.sender.sendCounter, s.sender.aad, p)])
    case Receive(packet) =>
      var r := OpenResult(s.receiver, key, packet);
      if r.Ok?
      then s.(receiver := AfterOpen(s.receiver, key, packet), delivered := s.delivered + [packet.counter], plaintexts := s.plaintexts + [r.value])
      else s
  }

  ghost function Run<P>(key: Key, aad: seq<byte>, events: seq<ChannelEvent<P>>): (s: System<P>)
    ensures InU64(s.receiver.guard)
  {
    if events == [] then System(NewCodec(aad), NewCodec(aad), [], [], [])
    else Step(Run(key, aad, events[..|events| - 1]), key, events[|events| - 1])
  }

  function Sends<P>(events: seq<ChannelEvent<P>>): seq<P> {
    if events == [] then []
    else
      var last := events[|events| - 1];
      Sends(events[..|events| - 1]) + if last.Transmit? then [last.plaintext] else []
  }

  /** What the network may deliver after `sent`: any packet at all, with any counter on it, except
      that a text sealed under the session key must be one the sender produced. */
  ghost predicate Deliverable<P>(key: Key, sent: seq<SealedPacket<Ciphertext<P>>>, packet: SealedPacket<Ciphertext<P>>) {
    packet.ciphertext.Sealed? && packet.ciphertext.key == key
    ==> exists i :: 0 <= i < |sent| && sent[i].ciphertext == packet.ciphertext
  }

  ghost predicate NetworkRun<P>(key: Key, aad: seq<byte>, events: seq<ChannelEvent<P>>) {
    events == [] ||
    var before, e := events[..|events| - 1], events[|events| - 1];
    NetworkRun(key, aad, before) && (e.Receive? ==> Deliverable(key, Run(key, aad, before).sent, e.packet))
  }

  /** The state after a run, in terms of what the sender was asked to send. */
  ghost predicate Explained<P>(key: Key, aad: seq<byte>, s: System<P>, plaintexts: seq<P>) {
    && s.sender.aad == s.receiver.aad == aad && s.receiver.guard.size == REPLAY_WINDOW
    && |s.sent| == |plaintexts|
    && s.sender.sendCounter == CounterOf(|plaintexts|)
    && (forall i :: 0 <= i < |s.sent| ==> s.sent[i] == SealPacket(key, CounterOf(i), aad, plaintexts[i]))
    && |s.delivered| == |s.plaintexts|
    && NoDuplicates(s.delivered)
    && Represents(s.receiver.guard, Elements(s.delivered))
    && (forall k :: 0 <= k < |s.delivered| ==>
          1 <= s.delivered[k] <= |plaintexts| && s.plaintexts[k] == plaintexts[s.delivered[k] - 1])
  }

  /** Safety over every run of fewer than 2^64 sends: no counter is delivered twice, and the text
      delivered under a counter is the one sealed under it. */
  lemma {:induction false} AuthenticAtMostOnce<P>(key: Key, aad: seq<byte>, events: seq<ChannelEvent<P>>)
    requires NetworkRun(key, aad, events)
    requires |Sends(events)| < TWO_TO_THE_64
    ensures Explained(key, aad, Run(key, aad, events), Sends(events))
  {
    if events != [] {
      var before, e := events[..|events| - 1], events[|events| - 1];
      AuthenticAtMostOnce(key, aad, before);
      var s, plaintexts := Run(key, aad, before), Sends(before);
      match e {
        case Transmit(p) =>
          SendStep(key, aad, s, plaintexts, p);
        case Receive(packet) =>
          ArriveStep(key, aad, s, plaintexts, packet);
          assert plaintexts + [] == plaintexts;
      }
    }
  }

  lemma SendStep<P>(key: Key, aad: seq<byte>, s: System<P>, plaintexts: seq<P>, p: P)
    requires InU64(s.receiver.guard) && Explained(key, aad, s, plaintexts)
    ensures Explained(key, aad, Step(s, key, Transmit(p)), plaintexts + [p])
  {
    var s' := Step(s, key, Transmit(p));
    assert NextCounter(CounterOf(|plaintexts|)) == CounterOf(|plaintexts| + 1) by {
      CounterSuccessor(|plaintexts|);
    }
    forall i | 0 <= i < |s'.sent|
      ensures s'.sent[i] == SealPacket(key, CounterOf(i), aad, (plaintexts + [p])[i])
    {
    }
  }

  lemma CounterSuccessor(i: nat)
    ensures NextCounter(CounterOf(i)) == CounterOf(i + 1)
  {
  }

  lemma ArriveStep<P>(key: Key, aad: seq<byte>, s: System<P>, plaintexts: seq<P>, packet: SealedPacket<Ciphertext<P>>)
    requires InU64(s.receiver.guard) && Explained(key, aad, s, plaintexts)
    requires |plaintexts| < TWO_TO_THE_64
    requires Deliverable(key, s.sent, packet)
    ensures Explained(key, aad, Step(s, key, Receive(packet)), plaintexts)
  {
    if OpenResult(s.receiver, key, packet).Ok? {
      var i := Origin(key, aad, s, plaintexts, packet);
      GuardStepRefines(s.receiver.guard, Elements(s.delivered), packet.counter);
      ExtendAccepted(s.delivered, packet.counter);
      var s' := Step(s, key, Receive(packet));
      assert s'.delivered == s.delivered + [packet.counter] && s'.plaintexts == s.plaintexts + [plaintexts[i]];
    }
  }

  /** A packet that authenticates carries the counter and the text of one sent packet. */
  lemma Origin<P>(key: Key, aad: seq<byte>, s: System<P>, plaintexts: seq<P>, packet: SealedPacket<Ciphertext<P>>)
    returns (i: nat)
    requires Explained(key, aad, s, plaintexts)
    requires |plaintexts| < TWO_TO_THE_64
    requires Deliverable(key, s.sent, packet)
    requires OpenPacket(key, packet, aad).Some?
    ensures i < |plaintexts| && packet.counter == i + 1
    ensures OpenPacket(key, packet, aad) == Some(plaintexts[i])
  {
    i :| 0 <= i < |s.sent| && s.sent[i].ciphertext == packet.ciphertext;
    assert s.sent[i] == SealPacket(key, CounterOf(i), aad, plaintexts[i]);
    NonceInjective(CounterOf(i), packet.counter);
  }

  /** Liveness after every such run, counters short of saturation: presenting the `i`-th sent packet
      delivers it exactly when it was not delivered before and is less than the window behind. */
  lemma GenuinePacketAccepted<P>(key: Key, aad: seq<byte>, events: seq<ChannelEvent<P>>, i: nat)
    requires NetworkRun(key, aad, events)
    requires i < |Sends(events)| < U64_MAX
    ensures i < |Run(key, aad, events).sent|
    ensures var s := Run(key, aad, events);
            OpenResult(s.receiver, key, s.sent[i]) == Ok(Sends(events)[i]) <==>
            Fresh(Elements(s.delivered), REPLAY_WINDOW, i + 1)
  {
    AuthenticAtMostOnce(key, aad, events);
    GenuineStep(key, aad, Run(key, aad, events), Sends(events), i);
  }

  lemma GenuineStep<P>(key: Key, aad: seq<byte>, s: System<P>, plaintexts: seq<P>, i: nat)
    requires InU64(s.receiver.guard) && Explained(key, aad, s, plaintexts)
    requires i < |plaintexts| < U64_MAX
    ensures OpenResult(s.receiver, key, s.sent[i]) == Ok(plaintexts[i]) <==>
            Fresh(Elements(s.delivered), REPLAY_WINDOW, i + 1)
  {
    var history := Elements(s.delivered);
    assert OpenPacket(key, s.sent[i], aad) == Some(plaintexts[i]) by {
      assert s.sent[i] == SealPacket(key, CounterOf(i), aad, plaintexts[i]);
    }
    assert s.sent[i].counter == i + 1 by {
      assert s.sent[i] == SealPacket(key, CounterOf(i), aad, plaintexts[i]);
    }
    assert forall h :: h in history ==> h < U64_MAX;
    GuardStepRefines(s.receiver.guard, history, i + 1);
  }

  // ---------------------------------------------------------------------------------------------
  // The `GLYE` wire form
  // ---------------------------------------------------------------------------------------------

  const SECURE_MAGIC: seq<byte> := [71, 76, 89, 69] // "GLYE"
  const SECURE_VERSION: u16 := 1
  const SECURE_HEADER_LEN: nat := 18
  const MAX_CIPHERTEXT_LEN: nat := 64 * 1024

  type WirePacket = SealedPacket<seq<byte>>

  datatype WireError = PayloadTooLarge | ShortDatagram | BadMagic | UnsupportedVersion | LengthMismatch

  function SealedBytes(packet: WirePacket): seq<byte> {
    SECURE_MAGIC + LittleEndian(SECURE_VERSION, 2) + LittleEndian(packet.counter, 8)
    + LittleEndian(|packet.ciphertext|, 4) + packet.ciphertext
  }

  method EncodeSealedDatagram(packet: WirePacket) returns (r: Result<seq<byte>, WireError>)
    ensures r == if |packet.ciphertext| > MAX_CIPHERTEXT_LEN then Err(PayloadTooLarge) else Ok(SealedBytes(packet))
  {
    if |packet.ciphertext| > MAX_CIPHERTEXT_LEN {
      return Err(PayloadTooLarge);
    }
    var out := SECURE_MAGIC;
    out := out + LittleEndian(SECURE_VERSION, 2);
    out := out + LittleEndian(packet.counter, 8);
    out := out + LittleEndian(|packet.ciphertext|, 4);
    out := out + packet.ciphertext;
    return Ok(out);
  }

  function DecodeSealedDatagram(bytes: seq<byte>): Result<WirePacket, WireError> {
    if |bytes| < SECURE_HEADER_LEN then Err(ShortDatagram)
    else if bytes[0..4] != SECURE_MAGIC then Err(BadMagic)
    else if FromLittleEndian(bytes[4..6]) != SECURE_VERSION then Err(UnsupportedVersion)
    else
      FixedWidthParse(bytes[6..14]);
      var counter := FromLittleEndian(bytes[6..14]);
      var length := FromLittleEndian(bytes[14..18]);
      if length > MAX_CIPHERTEXT_LEN || |bytes| != SECURE_HEADER_LEN + length then Err(LengthMismatch)
      else Ok(SealedPacket(counter, bytes[SECURE_HEADER_LEN..]))
  }

  /** The decoder accepts exactly the encoder's images, and returns the packet that was encoded. */
  lemma SealedDatagramRoundTrip(packet: WirePacket, bytes: seq<byte>)
    ensures DecodeSealedDatagram(bytes) == Ok(packet) <==>
            |packet.ciphertext| <= MAX_CIPHERTEXT_LEN && bytes == SealedBytes(packet)
  {
    if |packet.ciphertext| <= MAX_CIPHERTEXT_LEN && bytes == SealedBytes(packet) {
      SealedFields(packet);
    }
    if DecodeSealedDatagram(bytes) == Ok(packet) {
      SealedImage(bytes);
    }
  }

  lemma SealedFields(packet: WirePacket)
    requires |packet.ciphertext| <= MAX_CIPHERTEXT_LEN
    ensures DecodeSealedDatagram(SealedBytes(packet)) == Ok(packet)
  {
    var bytes := SealedBytes(packet);
    assert bytes[0..4] == SECURE_MAGIC;
    assert bytes[4..6] == LittleEndian(SECURE_VERSION, 2);
    assert bytes[6..14] == LittleEndian(packet.counter, 8);
    assert bytes[14..18] == LittleEndian(|packet.ciphertext|, 4);
    assert bytes[18..] == packet.ciphertext;
    FixedWidthRoundTrip(SECURE_VERSION, 2);
    FixedWidthRoundTrip(packet.counter, 8);
    FixedWidthRoundTrip(|packet.ciphertext|, 4);
  }

  lemma SealedImage(bytes: seq<byte>)
    requires DecodeSealedDatagram(bytes).Ok?
    ensures bytes == SealedBytes(DecodeSealedDatagram(bytes).value)
  {
    FixedWidthParse(bytes[4..6]);
    FixedWidthParse(bytes[6..14]);
    FixedWidthParse(bytes[14..18]);
    assert bytes == bytes[0..4] + bytes[4..6] + bytes[6..14] + bytes[14..18] + bytes[18..];
  }
}
