/**
 What runs do to secure sessions: what is flushed to a secured peer is sealed under its session's key, and
 what is routed for it opened under that session. Only the notices an operator's call sends by itself go
 out in plain, and exactly those do.
 */
module SecureRuns {
  import opened Wrappers
  import opened Transport
  import opened SecureChannel
  import opened Sessions
  import opened Router
  import opened Runtime
  import opened HostRun
  import InputRuns

  // ---------------------------------------------------------------------------------------------
  // Only under seal
  // ---------------------------------------------------------------------------------------------

  /** The keys a peer's secure session was established with, which no flush changes. */
  predicate SameKeys(h: Host, h': Host, p: Peer) {
    && (IsSecure(h.sessions, p) <==> IsSecure(h'.sessions, p))
    && (IsSecure(h.sessions, p) ==>
          && SecureOf(h, p).ciphers == SecureOf(h', p).ciphers
          && SecureOf(h, p).codec.aad == SecureOf(h', p).codec.aad
          && SecureOf(h, p).sessionId == SecureOf(h', p).sessionId)
  }

  /** An emission is sealed under the outbound key of a secure peer's session. */
  predicate UnderKeyOf(h: Host, e: Emission) {
    IsSecure(h.sessions, e.peer) ==>
      && e.wire.UnderSeal?
      && OpenPacket(SecureOf(h, e.peer).ciphers.outbound, e.wire.sealed, SecureOf(h, e.peer).codec.aad).Some?
  }

  ghost predicate AllUnderKeys(h: Host, emissions: seq<Emission>) {
    forall i :: 0 <= i < |emissions| ==> UnderKeyOf(h, emissions[i])
  }

  lemma FlushOneSealed(b: Backend, fate: Fate)
    ensures AllUnderKeys(b.host, FlushOne(b, fate).done.emissions)
  {
  }

  lemma FlushOneKeys(b: Backend, fate: Fate, p: Peer)
    ensures SameKeys(b.host, FlushOne(b, fate).done.backend.host, p)
  {
  }

  lemma {:induction false} FlushKeys(b: Backend, fates: seq<Fate>, p: Peer)
    ensures SameKeys(b.host, Flush(b, fates).backend.host, p)
    decreases |fates|
  {
    if fates != [] {
      FlushOneKeys(b, fates[0], p);
      if FlushOne(b, fates[0]).more {
        FlushKeys(FlushOne(b, fates[0]).done.backend, fates[1..], p);
      }
    }
  }

  /** Everything a flush hands to the socket for a secure peer is sealed under that session's key. */
  lemma {:induction false} FlushSealed(b: Backend, fates: seq<Fate>)
    ensures AllUnderKeys(b.host, Flush(b, fates).emissions)
    decreases |fates|
  {
    if fates != [] {
      FlushOneSealed(b, fates[0]);
      var one := FlushOne(b, fates[0]);
      if one.more {
        FlushSealed(one.done.backend, fates[1..]);
        var more := Flush(one.done.backend, fates[1..]).emissions;
        forall i | 0 <= i < |more|
          ensures UnderKeyOf(b.host, more[i])
        {
          FlushOneKeys(b, fates[0], more[i].peer);
        }
      }
    }
  }

  /** A packet routed for a secure peer came sealed, and opened under that peer's own session. */
  lemma SecurePeerRoutedSealed(b: Backend, i: PollInput, setup: Setup)
    requires i.received.Arrived? && Poll(b, i, setup).routed.Some? && IsSecure(b.host.sessions, i.received.peer)
    ensures var secure := SecureOf(b.host, i.received.peer);
            && i.received.datagram.Secure?
            && OpenPacket(secure.ciphers.inbound, i.received.datagram.sealed, secure.codec.aad) == Some(Encoded(Poll(b, i, setup).routed.value))
  {
    FlushKeys(b, i.before, i.received.peer);
    if Routes(b, i) {
      PollRoutes(b, i, setup);
    }
  }

  // ---------------------------------------------------------------------------------------------
  // What a step hands to the socket
  // ---------------------------------------------------------------------------------------------

  /** Does the step send the peer a notice? An approval does when it notifies, a rejection always, a
      challenge when there is a key to challenge, and a pairing challenge while attempts are left. */
  predicate Notifies(h: Host, step: Step, p: Peer) {
    match step
    case ApproveStep(peer, _, _, notify, _, _) => peer == p && notify
    case RejectStep(peer, _) => peer == p
    case ChallengeStep(peer, _, _, _) => peer == p && p in h.sessions && h.sessions[p].deviceKey.Some?
    case IssueStep(peer, env) =>
      peer == p && p in h.sessions && RefreshAttempts(h.sessions[p], env.ms).pairingAttempts < MAX_PAIRING_CODE_ATTEMPTS
    case _ => false
  }

  function StepEmissions(b: Backend, step: Step, setup: Setup): seq<Emission> {
    match step
    case PollStep(i) => Poll(b, i, setup).emissions
    case FlushStep(fates) => Flush(b, fates).emissions
    case _ => NoticeEmissions(b.host, step, setup)
  }

  /** All of it, but for the flush a poll ends with. */
  function FirstEmissions(b: Backend, step: Step, setup: Setup): seq<Emission> {
    match step
    case PollStep(i) => Flush(b, i.before).emissions
    case FlushStep(fates) => Flush(b, fates).emissions
    case _ => NoticeEmissions(b.host, step, setup)
  }

  predicate FlushesLast(b: Backend, step: Step, setup: Setup) {
    step.PollStep? && Routes(b, step.input) && RoutedOf(b, step.input, setup).result.Ok?
  }

  function LastEmissions(b: Backend, step: Step, setup: Setup): seq<Emission> {
    if FlushesLast(b, step, setup) then Flush(BeforeLastFlush(b, step.input, setup), step.input.after).emissions else []
  }

  lemma CompletedEmissions(b: Backend, peer: Peer, packet: Packet, routed: Routed, i: PollInput)
    ensures Completed(b, peer, packet, routed, i).emissions
            == if routed.result.Err? then []
               else Flush(Answered(b.(host := routed.host), peer, routed.result.value, i.displays, i.env).0, i.after).emissions
  {
  }

  lemma EmissionsSplit(b: Backend, step: Step, setup: Setup)
    ensures StepEmissions(b, step, setup) == FirstEmissions(b, step, setup) + LastEmissions(b, step, setup)
  {
    var first := FirstEmissions(b, step, setup);
    assert first + [] == first;
    if step.PollStep? && Routes(b, step.input) {
      var i := step.input;
      PollRoutes(b, i, setup);
      CompletedEmissions(Arriving(b, i), i.received.peer, Screened(Screening(b, i), i.received.peer, i.received.datagram).value,
                         RoutedOf(b, i, setup), i);
    }
  }

  lemma IssuesWhileAttemptsLeft(h: Host, peer: Peer, env: Env)
    requires peer in h.sessions
    ensures IssueChallenge(h, peer, env).1.Some? <==> RefreshAttempts(h.sessions[peer], env.ms).pairingAttempts < MAX_PAIRING_CODE_ATTEMPTS
  {
    assert Unexpired(h, env).Ensure(peer, env) == Unexpired(h, env);
  }

  /** For a peer with a session, a notice is sent exactly when the step notifies it; notices are in plain. */
  lemma NoticesSent(h: Host, step: Step, setup: Setup, p: Peer)
    requires p in h.sessions
    ensures (exists i :: 0 <= i < |NoticeEmissions(h, step, setup)| && NoticeEmissions(h, step, setup)[i].peer == p) <==> Notifies(h, step, p)
    ensures forall i :: 0 <= i < |NoticeEmissions(h, step, setup)| ==> NoticeEmissions(h, step, setup)[i].wire.InPlain?
  {
    var sent := NoticeEmissions(h, step, setup);
    if step.IssueStep? && step.peer == p {
      IssuesWhileAttemptsLeft(h, p, step.env);
    }
    if Notifies(h, step, p) {
      assert |Notices(h, step, setup)| > 0;
      assert sent[0].peer == p;
    }
  }

  // ---------------------------------------------------------------------------------------------
  // Every step of every run
  // ---------------------------------------------------------------------------------------------

  ghost predicate AllToUnderKey(h: Host, emissions: seq<Emission>, p: Peer) {
    IsSecure(h.sessions, p) && forall i :: 0 <= i < |emissions| && emissions[i].peer == p ==> UnderKeyOf(h, emissions[i])
  }

  /** What a step hands to the socket for a secure peer: notices in plain if it notifies the peer, and
      else everything under the key the session has at that flush. */
  ghost predicate Served(b: Backend, step: Step, setup: Setup, p: Peer) {
    && (if Notifies(b.host, step, p)
        then forall i :: 0 <= i < |FirstEmissions(b, step, setup)| ==> FirstEmissions(b, step, setup)[i].wire.InPlain?
        else AllToUnderKey(b.host, FirstEmissions(b, step, setup), p))
    && (FlushesLast(b, step, setup) ==> AllToUnderKey(BeforeLastFlush(b, step.input, setup).host, LastEmissions(b, step, setup), p))
  }

  lemma StepServed(b: Backend, step: Step, setup: Setup, p: Peer)
    requires IsSecure(b.host.sessions, p) && InputRuns.CalmAt(b.host, p)
    ensures Served(b, step, setup, p)
  {
    match step {
      case PollStep(i) =>
        FlushSealed(b, i.before);
        if FlushesLast(b, step, setup) {
          InputRuns.UpToLastFlushTame(b, i, setup, p);
          FlushSealed(BeforeLastFlush(b, i, setup), i.after);
        }
      case FlushStep(fates) => FlushSealed(b, fates);
      case _ => NoticesSent(b.host, step, setup, p);
    }
  }

  ghost predicate SendsInPlain(b: Backend, step: Step, setup: Setup, p: Peer) {
    exists i :: 0 <= i < |StepEmissions(b, step, setup)| && StepEmissions(b, step, setup)[i].peer == p
                && StepEmissions(b, step, setup)[i].wire.InPlain?
  }

  lemma PlainExactlyNotices(b: Backend, step: Step, setup: Setup, p: Peer)
    requires IsSecure(b.host.sessions, p) && InputRuns.CalmAt(b.host, p)
    ensures SendsInPlain(b, step, setup, p) <==> Notifies(b.host, step, p)
  {
    var sent := StepEmissions(b, step, setup);
    StepServed(b, step, setup, p);
    EmissionsSplit(b, step, setup);
    if step.PollStep? || step.FlushStep? {
      forall i | 0 <= i < |sent| && sent[i].peer == p
        ensures sent[i].wire.UnderSeal?
      {
        var first := |FirstEmissions(b, step, setup)|;
        assert i < first ==> sent[i] == FirstEmissions(b, step, setup)[i];
        assert i >= first ==> sent[i] == LastEmissions(b, step, setup)[i - first];
      }
    } else {
      NoticesSent(b.host, step, setup, p);
    }
  }

  /** What arrives from a secure peer and is routed came sealed and opened under that peer's session. */
  predicate RoutedUnderKey(b: Backend, step: Step, setup: Setup, p: Peer)
    requires IsSecure(b.host.sessions, p)
  {
    step.PollStep? && step.input.received.Arrived? && step.input.received.peer == p && Poll(b, step.input, setup).routed.Some? ==>
      && step.input.received.datagram.Secure?
      && OpenPacket(SecureOf(b.host, p).ciphers.inbound, step.input.received.datagram.sealed, SecureOf(b.host, p).codec.aad)
         == Some(Encoded(Poll(b, step.input, setup).routed.value))
  }

  /** From the moment a peer is secure, at every later step of every run: what is flushed to it is sealed
      under the key its session has then, what goes to it in plain are exactly the notices, and what is
      routed for it came sealed and opened under its session. */
  lemma SecureBothWays(init: Env, steps: seq<Step>, setup: Setup, i: nat, j: nat, p: Peer)
    requires i <= j < |steps|
    requires IsSecure(At(init, steps, setup, i).host.sessions, p)
    ensures var b := At(init, steps, setup, j);
            && IsSecure(b.host.sessions, p)
            && Served(b, steps[j], setup, p)
            && (SendsInPlain(b, steps[j], setup, p) <==> Notifies(b.host, steps[j], p))
            && RoutedUnderKey(b, steps[j], setup, p)
  {
    var b := At(init, steps, setup, j);
    InputRuns.SecureForever(init, steps, setup, i, j, p);
    InputRuns.AlwaysCalm(init, steps, setup, j, p);
    StepServed(b, steps[j], setup, p);
    PlainExactlyNotices(b, steps[j], setup, p);
    if steps[j].PollStep? && steps[j].input.received.Arrived? && steps[j].input.received.peer == p
       && Poll(b, steps[j].input, setup).routed.Some? {
      SecurePeerRoutedSealed(b, steps[j].input, setup);
    }
  }
}
