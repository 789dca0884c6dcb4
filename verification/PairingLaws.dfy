/**
 What issuing a pairing code, and proving it, do to a session and to the code, stated on their fields.
 */
module PairingLaws {
  import opened Bytes
  import opened Wrappers
  import opened Transport
  import opened Outbound
  import opened Sessions
  import opened Router
  import opened RouteLaws

  /** Two minutes have gone by since the window began, as far as the clock tells. */
  predicate WindowOver(s: Session, ms: nat) {
    ms >= s.attemptWindowStartMs + 120_000
  }

  function AttemptsNow(s: Session, ms: nat): nat {
    if WindowOver(s, ms) then 0 else s.pairingAttempts
  }

  function WindowNow(s: Session, ms: u64): u64 {
    if WindowOver(s, ms) then ms else s.attemptWindowStartMs
  }

  /** All but one session, and all but the code, stay; the others lose their challenges if the code changes. */
  predicate OthersKept(h: Host, h': Host, p: Peer, voided: bool) {
    && h'.sessions.Keys == h.sessions.Keys && h'.attempts == h.attempts
    && forall q :: q in h.sessions && q != p ==>
         h'.sessions[q] == if voided then h.sessions[q].(pendingPairing := None) else h.sessions[q]
  }

  /** The code is new, and good for five minutes. */
  predicate NewCode(h': Host, env: Env) {
    h'.code == env.code && h'.codeExpiresMs == Min(env.ms + 300_000, U64_MAX)
  }

  // ---------------------------------------------------------------------------------------------
  // Proving the code
  // ---------------------------------------------------------------------------------------------

  /** Why a proof fails, if it does: the first of these. */
  function WhyFails(h: Host, s: Session, proof: seq<byte>, ms: nat, crypto: Crypto): Option<Reason> {
    if AttemptsNow(s, ms) >= 5 then Some(AttemptLimit)
    else if s.pendingPairing.None? then Some(ChallengeNotRequested)
    else if ms > s.pendingPairing.value.expiresAtMs || ms > h.codeExpiresMs then Some(CodeExpired)
    else if proof != crypto.proof(h.code, s.pendingPairing.value.salt) then Some(CodeMismatch)
    else None
  }

  /** A proof succeeds exactly when an attempt is left, the peer holds a challenge, neither it nor the code
      has expired, and the proof is of that code and that salt. A success counts as verified, clears the
      count, and changes the code, which voids every challenge; a failure is counted and spends the
      challenge, unless no attempt was left. */
  lemma ProofDecides(h: Host, p: Peer, proof: seq<byte>, setup: Setup, env: Env)
    requires p in h.sessions
    ensures var (h', failure) := VerifyProof(h, p, proof, setup, env);
            var s := h.sessions[p];
            var now := s.(attemptWindowStartMs := WindowNow(s, env.ms), pairingAttempts := AttemptsNow(s, env.ms));
            && failure == WhyFails(h, s, proof, env.ms, setup.crypto)
            && OthersKept(h, h', p, failure.None?) && h'.nextSequence == h.nextSequence
            && h'.sessions[p] == (if failure == Some(AttemptLimit) then now
                                  else now.(pendingPairing := None, codeVerified := failure.None?,
                                            pairingAttempts := if failure.None? then 0 else now.pairingAttempts + 1))
            && if failure.None? then NewCode(h', env) else h'.code == h.code && h'.codeExpiresMs == h.codeExpiresMs
  {
    assert h.Ensure(p, env) == h;
  }

  // ---------------------------------------------------------------------------------------------
  // Issuing a challenge
  // ---------------------------------------------------------------------------------------------

  /** The host whose code was replaced if it had expired. */
  predicate CodeRefreshed(h: Host, h1: Host, env: Env) {
    if env.ms >= h.codeExpiresMs then NewCode(h1, env) else h1.code == h.code && h1.codeExpiresMs == h.codeExpiresMs
  }

  /** A known peer with an attempt left is challenged with the salt drawn, for two minutes at most and no
      longer than the code; the packet says so, and the code is returned for the operator to show. */
  lemma IssueDecides(h: Host, p: Peer, env: Env)
    requires p in h.sessions
    ensures var (h', issued) := IssueChallenge(h, p, env);
            var s := h.sessions[p];
            var now := s.(attemptWindowStartMs := WindowNow(s, env.ms), pairingAttempts := AttemptsNow(s, env.ms),
                          pendingPairing := if env.ms >= h.codeExpiresMs then None else s.pendingPairing);
            && CodeRefreshed(h, h', env) && OthersKept(h, h', p, env.ms >= h.codeExpiresMs)
            && if AttemptsNow(s, env.ms) >= 5 then issued == None && h'.sessions[p] == now && h'.nextSequence == h.nextSequence
               else
                 var expires := Min(Min(env.ms + 120_000, U64_MAX), h'.codeExpiresMs);
                 && h'.sessions[p] == now.(pendingPairing := Some(PendingPairing(env.salt, expires)), codeVerified := false)
                 && issued == Some((h'.code, HostPacket(h.nextSequence, PairingChallenge, PairingChallengeBody(env.salt, expires), env)))
                 && h'.nextSequence == Min(h.nextSequence + 1, U64_MAX)
  {
    var h1 := Unexpired(h, env);
    assert h1.Ensure(p, env) == h1;
  }

  // ---------------------------------------------------------------------------------------------
  // Pairing requests
  // ---------------------------------------------------------------------------------------------

  /** The session once the request has named its device and its key. */
  function NamedBy(s: Session, body: Body, env: Env): Session
    requires body.PairingRequestBody?
  {
    Noted(s, env).(deviceId := Some(body.deviceName), deviceKey := if body.publicKey == [] then None else Some(body.publicKey), pendingAuth := None)
  }

  /** Without a proof, a request names its device and key, and waits for the operator. */
  lemma RequestWaits(h: Host, p: Peer, packet: Packet, setup: Setup, env: Env)
    requires p in h.sessions && h.sessions[p].permission != Rejected && setup.policy == RequireApproval
    requires packet.messageKind == PairingRequest && packet.payload.PairingRequestBody? && packet.payload.proof == []
    ensures var r := Route(h, p, packet, setup, env);
            r.input.None? && Gives(h, r, p, NamedBy(h.sessions[p], packet.payload, env), [PairingRequested(p, false)], [])
  {
    KnownRoute(h, p, packet, setup, env);
  }

  lemma PairingConcludes(h: Host, p: Peer, body: Body, named: Session, first: seq<BackendEvent>, setup: Setup, env: Env)
    requires p in h.sessions && setup.policy == RequireApproval && body.PairingRequestBody? && body.proof != []
    requires named == h.sessions[p].(deviceId := Some(body.deviceName),
                                     deviceKey := if body.publicKey == [] then None else Some(body.publicKey), pendingAuth := None)
    ensures RoutePairing(h, p, body, first, setup, env)
            == Concluded(VerifyProof(h.Put(p, named), p, body.proof, setup, env).0, p, VerifyProof(h.Put(p, named), p, body.proof, setup, env).1, first, env)
  {
  }

  lemma RequestVerifies(h: Host, p: Peer, packet: Packet, setup: Setup, env: Env)
    requires p in h.sessions && h.sessions[p].permission != Rejected && setup.policy == RequireApproval
    requires packet.messageKind == PairingRequest && packet.payload.PairingRequestBody? && packet.payload.proof != []
    ensures var h1 := h.Put(p, NamedBy(h.sessions[p], packet.payload, env));
            Route(h, p, packet, setup, env)
            == Concluded(VerifyProof(h1, p, packet.payload.proof, setup, env).0, p, VerifyProof(h1, p, packet.payload.proof, setup, env).1,
                         First(h.sessions[p], p), env)
  {
    var h0, named := h.Put(p, Noted(h.sessions[p], env)), NamedBy(h.sessions[p], packet.payload, env);
    KnownRoute(h, p, packet, setup, env);
    PairingConcludes(h0, p, packet.payload, named, First(h.sessions[p], p), setup, env);
    assert h0.Put(p, named) == h.Put(p, named);
  }

  /** What a request with a proof comes to. */
  function Concluded(h: Host, p: Peer, failure: Option<Reason>, first: seq<BackendEvent>, env: Env): Routed
    requires p in h.sessions
  {
    if failure.None? then Routed(h, Ok(Outcome(first + [PairingRequested(p, true)], [])), None)
    else
      Routed(h.(nextSequence := Following(h.nextSequence)),
             Ok(Outcome(first + [PairingCodeRejected(p, 5 - Min(5, h.sessions[p].pairingAttempts), failure.value), PairingResultQueued(p, false)],
                        [Outgoing(p, HostPacket(h.nextSequence, PairingResult, PairingResultBody(false, None), env))])),
             None)
  }

  /** With a proof it is told to the operator as verified, or answered with a refusal. */
  lemma RequestProved(h: Host, p: Peer, packet: Packet, setup: Setup, env: Env)
    requires p in h.sessions && h.sessions[p].permission != Rejected && setup.policy == RequireApproval
    requires packet.messageKind == PairingRequest && packet.payload.PairingRequestBody? && packet.payload.proof != []
    ensures var h2 := VerifyProof(h.Put(p, NamedBy(h.sessions[p], packet.payload, env)), p, packet.payload.proof, setup, env).0;
            Route(h, p, packet, setup, env)
            == Concluded(h2, p, WhyFails(h, h.sessions[p], packet.payload.proof, env.ms, setup.crypto), First(h.sessions[p], p), env)
  {
    RequestVerifies(h, p, packet, setup, env);
    ProofDecides(h.Put(p, NamedBy(h.sessions[p], packet.payload, env)), p, packet.payload.proof, setup, env);
  }
}
