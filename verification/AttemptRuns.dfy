/**
 How many pairing attempts a peer is allowed over time. A session counts failed proofs in a window of two
 minutes that starts anew at the first call after it ended; a success, or a new session, clears the count.
 */
module AttemptRuns {
  import opened Bytes
  import opened Wrappers
  import opened Transport
  import opened Sessions
  import opened Admission
  import opened Router
  import opened Runtime
  import opened HostRun
  import opened AuthRuns
  import PairingRuns
  import PlainRuns

  // ---------------------------------------------------------------------------------------------
  // Counting
  // ---------------------------------------------------------------------------------------------

  datatype Tally = Tally(count: nat, start: nat)

  function Begun(t: Option<Tally>, ms: nat): Tally {
    if t.Some? then t.value else Tally(0, ms)
  }

  function Fresh(t: Tally, ms: nat): Tally {
    if ms >= t.start + PAIRING_ATTEMPT_WINDOW_MS then Tally(0, ms) else t
  }

  datatype Verdict = Idle | Tried | Cleared

  /** What a call at `ms` makes of a count; it may leave an ended window standing. */
  predicate Counts(t: Option<Tally>, t': Tally, ms: nat, v: Verdict) {
    var base := Begun(t, ms);
    var now := Fresh(base, ms);
    match v
    case Idle => t' == base || t' == now
    case Tried => now.count < MAX_PAIRING_CODE_ATTEMPTS && t' == Tally(now.count + 1, now.start)
    case Cleared => t' == Tally(0, now.start)
  }

  /** The attempts by round: all before the previous one, the previous one's, and the current one's. */
  datatype Rounds = Rounds(older: seq<nat>, previous: seq<nat>, current: seq<nat>, previousStart: nat)

  const TWICE: nat := 2 * MAX_PAIRING_CODE_ATTEMPTS

  ghost predicate Explains(b: Rounds, times: seq<nat>, t: Tally, now: nat) {
    && times == b.older + b.previous + b.current
    && Sorted(times) && Spaced(times, TWICE, PAIRING_ATTEMPT_WINDOW_MS)
    && (forall a :: a in times ==> a <= now)
    && |b.previous| <= MAX_PAIRING_CODE_ATTEMPTS && |b.current| <= Min(t.count, MAX_PAIRING_CODE_ATTEMPTS)
    && (forall a :: a in b.older ==> a < b.previousStart)
    && (b.older != [] ==> b.previousStart + PAIRING_ATTEMPT_WINDOW_MS <= t.start <= now)
    && (forall a :: a in b.older + b.previous ==> a < t.start)
    && (forall a :: a in b.current ==> a < t.start + PAIRING_ATTEMPT_WINDOW_MS)
  }

  /** Before the first attempt of a stretch. */
  lemma NoneYet(t: Tally, now: nat)
    ensures Explains(Rounds([], [], [], 0), [], t, now)
  {
  }

  lemma ExplainsLater(b: Rounds, times: seq<nat>, t: Tally, now: nat, later: nat)
    requires Explains(b, times, t, now) && now <= later
    ensures Explains(b, times, t, later)
  {
  }

  lemma FreshExplained(b: Rounds, times: seq<nat>, t: Tally, now: nat) returns (b': Rounds)
    requires Explains(b, times, t, now)
    ensures Explains(b', times, Fresh(t, now), now)
  {
    b' := b;
    if Fresh(t, now) != t {
      b' := Rounds(b.older + b.previous, b.current, [], t.start);
      assert b'.older + b'.previous + b'.current == times;
    }
  }

  lemma TriedExplained(b: Rounds, times: seq<nat>, t: Tally, now: nat) returns (b': Rounds)
    requires Explains(b, times, t, now) && t.count < MAX_PAIRING_CODE_ATTEMPTS && now < t.start + PAIRING_ATTEMPT_WINDOW_MS
    ensures Explains(b', times + [now], Tally(t.count + 1, t.start), now)
  {
    b' := b.(current := b.current + [now]);
    assert b'.older + b'.previous + b'.current == times + [now];
    if TWICE <= |times| {
      var k := |times| - TWICE;
      assert times[k] == b.older[k];
      assert times[k] in b.older;
    }
    assert times != [] ==> times[|times| - 1] in times;
    SpacedExtends(times, TWICE, PAIRING_ATTEMPT_WINDOW_MS, now);
  }

  lemma CountExplained(b: Rounds, times: seq<nat>, t: Tally, t': Tally, now: nat, ms: nat, v: Verdict) returns (b': Rounds)
    requires Explains(b, times, t, now) && now <= ms && Counts(Some(t), t', ms, v) && !v.Cleared?
    ensures Explains(b', times + (if v.Tried? then [ms] else []), t', ms)
  {
    ExplainsLater(b, times, t, now, ms);
    b' := b;
    if v.Tried? {
      var b1 := FreshExplained(b, times, t, ms);
      b' := TriedExplained(b1, times, Fresh(t, ms), ms);
    } else {
      assert times + [] == times;
      if t' != t {
        b' := FreshExplained(b, times, t, ms);
      }
    }
  }

  // ---------------------------------------------------------------------------------------------
  // What calls do to a session's count
  // ---------------------------------------------------------------------------------------------

  function TallyOf(h: Host, q: Peer): Option<Tally> {
    if q in h.sessions then Some(Tally(h.sessions[q].pairingAttempts, h.sessions[q].attemptWindowStartMs)) else None
  }

  predicate Same(h: Host, h': Host, q: Peer) {
    TallyOf(h', q) == TallyOf(h, q)
  }

  /** A session that is there keeps its count, or is a new one. */
  predicate Lasts(h: Host, h': Host, q: Peer, ms: nat) {
    q in h'.sessions ==> TallyOf(h', q) == Some(Begun(TallyOf(h, q), ms))
  }

  lemma EnsureLasts(h: Host, peer: Peer, env: Env, q: Peer)
    ensures Lasts(h, h.Ensure(peer, env), q, env.ms)
  {
  }

  lemma PutSame(h: Host, peer: Peer, s: Session, q: Peer)
    requires peer in h.sessions && s.pairingAttempts == h.sessions[peer].pairingAttempts
    requires s.attemptWindowStartMs == h.sessions[peer].attemptWindowStartMs
    ensures Same(h, h.Put(peer, s), q)
  {
  }

  lemma BegunSame(h: Host, peer: Peer, setup: Setup, env: Env, q: Peer)
    requires peer in h.sessions
    ensures Same(h, ExchangeBegun(Advanced(h), peer, setup, env), q)
  {
  }

  lemma ApproveLasts(h: Host, peer: Peer, device: Text, permissions: Permissions, setup: Setup, env: Env, q: Peer)
    ensures Lasts(h, Approve(h, peer, device, permissions, env), q, env.ms)
    ensures Lasts(h, ApproveWithResponse(h, peer, device, permissions, setup, env).0, q, env.ms)
  {
    var h1, h2 := h.Ensure(peer, env), Approve(h, peer, device, permissions, env);
    EnsureLasts(h, peer, env, q);
    PutSame(h1, peer, h2.sessions[peer], q);
    BegunSame(h2, peer, setup, env, q);
  }

  lemma RotateSame(h: Host, env: Env, q: Peer)
    ensures Same(h, Rotate(h, env), q) && Same(h, Unexpired(h, env), q)
  {
  }

  predicate Counted(h: Host, h': Host, q: Peer, ms: nat, v: Verdict) {
    q in h'.sessions ==> Counts(TallyOf(h, q), TallyOf(h', q).value, ms, v)
  }

  lemma IssueCounted(h: Host, peer: Peer, env: Env, q: Peer)
    ensures Counted(h, IssueChallenge(h, peer, env).0, q, env.ms, Idle)
  {
    var h1, h2 := Unexpired(h, env), Unexpired(h, env).Ensure(peer, env);
    RotateSame(h, env, q);
    EnsureLasts(h1, peer, env, q);
    assert q != peer ==> Same(h2, IssueTo(h2, peer, env).0, q);
  }

  lemma OperatorCounted(h: Host, step: Step, setup: Setup, q: Peer, ms: nat)
    requires !step.PollStep? && !step.FlushStep? && !step.MediaStep?
    requires step.PermissionsStep? || ms == step.env.ms
    ensures Counted(h, HostStep(h, step, setup), q, ms, Idle)
  {
    match step {
      case ApproveStep(peer, device, permissions, notify, taken, env) => ApproveLasts(h, peer, device, permissions, setup, env, q);
      case RejectStep(peer, env) => EnsureLasts(h, peer, env, q);
      case ChallengeStep(peer, device, permissions, env) => EnsureLasts(h, peer, env, q);
      case IssueStep(peer, env) => IssueCounted(h, peer, env, q);
      case PermissionsStep(device, permissions) =>
    }
  }

  function VerdictOf(failure: Option<Reason>): Verdict {
    match failure
    case None => Cleared
    case Some(why) => if why == AttemptLimit then Idle else Tried
  }

  /** Checking a proof counts against its peer alone. */
  lemma VerifyCounted(h: Host, peer: Peer, proof: seq<byte>, setup: Setup, env: Env, q: Peer)
    requires peer in h.sessions
    ensures var (h', failure) := VerifyProof(h, peer, proof, setup, env);
            if q == peer then q in h'.sessions && Counts(TallyOf(h, q), TallyOf(h', q).value, env.ms, VerdictOf(failure)) else Same(h, h', q)
  {
  }

  // ---------------------------------------------------------------------------------------------
  // Routing
  // ---------------------------------------------------------------------------------------------

  lemma SeenLasts(h: Host, peer: Peer, env: Env, q: Peer)
    ensures Lasts(h, Attempted(h, peer, env), q, env.ms)
    ensures Lasts(h, Seen(Attempted(h, peer, env), peer, env), q, env.ms)
  {
    var h0 := Attempted(h, peer, env);
    EnsureLasts(h0, peer, env, q);
    PutSame(h0.Ensure(peer, env), peer, Seen(h0, peer, env).sessions[peer], q);
  }

  lemma ApprovedSame(h: Host, peer: Peer, packet: Packet, events: seq<BackendEvent>, setup: Setup, env: Env, q: Peer)
    requires peer in h.sessions
    ensures Same(h, RouteApproved(h, peer, packet, events, setup, env).host, q)
  {
  }

  lemma AuthSame(h: Host, peer: Peer, body: Body, events: seq<BackendEvent>, setup: Setup, env: Env, q: Peer)
    requires peer in h.sessions
    ensures Same(h, RouteAuth(h, peer, body, events, setup, env).host, q)
  {
    if body.AuthResponseBody? && AuthFailure(h.sessions[peer], body, setup, env).None? {
      var s := h.sessions[peer];
      var h1 := h.Put(peer, s.(permission := Approved, deviceId := Some(s.pendingAuth.value.expectedDevice), pendingAuth := None));
      BegunSame(h1, peer, setup, env, q);
    }
  }

  /** Without a proof to check. */
  lemma PairingSame(h: Host, peer: Peer, body: Body, events: seq<BackendEvent>, setup: Setup, env: Env, q: Peer)
    requires peer in h.sessions
    requires body.PairingRequestBody? ==> setup.policy == DevAutoApprove || body.proof == []
    ensures Same(h, RoutePairing(h, peer, body, events, setup, env).host, q)
  {
    if body.PairingRequestBody? && setup.policy == DevAutoApprove {
      var key := KeyAsked(body);
      var h1 := h.Put(peer, h.sessions[peer].(deviceId := Some(setup.crypto.trustedDevice(key, peer)), deviceKey := key,
                                              pendingAuth := None, permission := Approved));
      BegunSame(h1, peer, setup, env, q);
      assert RoutePairing(h, peer, body, events, setup, env).host == ExchangeBegun(Advanced(h1), peer, setup, env);
    }
  }

  lemma KnownSame(h: Host, peer: Peer, packet: Packet, events: seq<BackendEvent>, setup: Setup, env: Env, q: Peer)
    requires peer in h.sessions
    requires packet.messageKind == PairingRequest && packet.payload.PairingRequestBody? ==> setup.policy == DevAutoApprove || packet.payload.proof == []
    ensures Same(h, RouteKnown(h, peer, packet, events, setup, env).host, q)
  {
    var s := h.sessions[peer];
    if packet.messageKind == PairingRequest {
      PairingSame(h, peer, packet.payload, events, setup, env, q);
    } else if packet.messageKind == AuthResponse {
      AuthSame(h, peer, packet.payload, events, setup, env, q);
    } else if s.permission == Approved {
      ApprovedSame(h, peer, packet, events, setup, env, q);
    } else if setup.policy == DevAutoApprove {
      var device := if s.deviceId.Some? then s.deviceId else Some(setup.crypto.devDevice(peer));
      ApprovedSame(h.Put(peer, s.(permission := Approved, deviceId := device)), peer, packet, events + [PeerAutoApproved(peer)], setup, env, q);
    }
  }

  /** What routing a packet counts for a peer. */
  function RouteVerdict(h: Host, peer: Peer, packet: Packet, setup: Setup, env: Env, q: Peer): Verdict {
    var check := PairingRuns.ProofCheck(h, peer, packet, setup, env);
    if q != peer || check.None? then Idle
    else VerdictOf(VerifyProof(check.value, peer, packet.payload.proof, setup, env).1)
  }

  lemma RouteCounted(h: Host, peer: Peer, packet: Packet, setup: Setup, env: Env, q: Peer)
    ensures Counted(h, Route(h, peer, packet, setup, env).host, q, env.ms, RouteVerdict(h, peer, packet, setup, env, q))
  {
    SeenLasts(h, peer, env, q);
    var check, seen := PairingRuns.ProofCheck(h, peer, packet, setup, env), Seen(Attempted(h, peer, env), peer, env);
    if check.Some? {
      PutSame(seen, peer, check.value.sessions[peer], q);
      VerifyCounted(check.value, peer, packet.payload.proof, setup, env, q);
      PairingRuns.RouteAfterCheck(h, peer, packet, setup, env);
    } else if LetIn(h, peer, env) && seen.sessions[peer].permission != Rejected {
      var events := if seen.sessions[peer].packetsReceived == 1 then [SessionDiscovered(peer)] else [];
      KnownSame(seen, peer, packet, events, setup, env, q);
    }
  }

  // ---------------------------------------------------------------------------------------------
  // Every step
  // ---------------------------------------------------------------------------------------------

  function ClockOf(step: Step): Option<nat> {
    match step
    case PollStep(i) => Some(i.env.ms)
    case ApproveStep(_, _, _, _, _, env) => Some(env.ms)
    case RejectStep(_, env) => Some(env.ms)
    case ChallengeStep(_, _, _, env) => Some(env.ms)
    case IssueStep(_, env) => Some(env.ms)
    case _ => None
  }

  function StepVerdict(b: Backend, step: Step, setup: Setup, q: Peer): Verdict {
    if step.PollStep? && Routes(b, step.input) then
      var i := step.input;
      RouteVerdict(Routing(b, i), i.received.peer, Screened(Screening(b, i), i.received.peer, i.received.datagram).value, setup, i.env, q)
    else Idle
  }

  lemma PollCounted(b: Backend, i: PollInput, setup: Setup, q: Peer)
    ensures Counted(b.host, Poll(b, i, setup).backend.host, q, i.env.ms, StepVerdict(b, PollStep(i), setup, q))
  {
    PollPhases(b, i, setup);
    PlainRuns.FlushSameButCodec(b, i.before, q);
    if Handles(b, i) {
      PlainRuns.RoutingSameButCodec(b, i, q);
      if Routes(b, i) {
        RouteCounted(Routing(b, i), i.received.peer, Screened(Screening(b, i), i.received.peer, i.received.datagram).value, setup, i.env, q);
        PlainRuns.AfterRoutingHolds(b, i, setup, q);
      }
    }
  }

  lemma StepCounted(b: Backend, step: Step, setup: Setup, q: Peer, ms: nat)
    requires ClockOf(step).Some? ==> ms == ClockOf(step).value
    ensures Counted(b.host, Take(b, step, setup).host, q, ms, StepVerdict(b, step, setup, q))
  {
    match step {
      case PollStep(i) => PollCounted(b, i, setup, q);
      case FlushStep(fates) => PlainRuns.FlushSameButCodec(b, fates, q);
      case MediaStep(packets, video, order) =>
      case _ => OperatorCounted(b.host, step, setup, q, ms);
    }
  }

  // ---------------------------------------------------------------------------------------------
  // Over runs
  // ---------------------------------------------------------------------------------------------

  /** What a step is to a peer: the clock it read, what it counted, and the session's count after it. */
  datatype Tick = Tick(clock: Option<nat>, verdict: Verdict, tally: Option<Tally>)

  function TickOf(b: Backend, step: Step, setup: Setup, q: Peer): Tick {
    Tick(ClockOf(step), StepVerdict(b, step, setup, q), TallyOf(Take(b, step, setup).host, q))
  }

  /** The steps of a run from `b`. */
  function Ticks(b: Backend, steps: seq<Step>, setup: Setup, q: Peer): (r: seq<Tick>)
    ensures |r| == |steps|
  {
    seq(|steps|, m requires 0 <= m < |steps| => TickOf(From(b, steps[..m], setup), steps[m], setup, q))
  }

  /** When attempts were counted. */
  function Tries(ticks: seq<Tick>): seq<nat> {
    if ticks == [] then []
    else
      var last := ticks[|ticks| - 1];
      Tries(ticks[..|ticks| - 1]) + if last.verdict.Tried? && last.clock.Some? then [last.clock.value] else []
  }

  /** The peer is never without a session after a step, and never proves the code. */
  ghost predicate Uncleared(ticks: seq<Tick>) {
    forall m :: 0 <= m < |ticks| ==> ticks[m].tally.Some? && !ticks[m].verdict.Cleared?
  }

  /** The clock never goes back. */
  ghost predicate Forward(ticks: seq<Tick>) {
    forall i, j :: 0 <= i < j < |ticks| && ticks[i].clock.Some? && ticks[j].clock.Some? ==> ticks[i].clock.value <= ticks[j].clock.value
  }

  function CountAfter(first: Option<Tally>, ticks: seq<Tick>): Option<Tally> {
    if ticks == [] then first else ticks[|ticks| - 1].tally
  }

  predicate AtMoment(tick: Tick, ms: nat) {
    tick.clock.Some? ==> tick.clock.value == ms
  }

  predicate Follows(t: Option<Tally>, tick: Tick, ms: nat) {
    AtMoment(tick, ms) && tick.tally.Some? ==> Counts(t, tick.tally.value, ms, tick.verdict)
  }

  /** Every step counts as `Counts` says. */
  ghost predicate Chained(first: Option<Tally>, ticks: seq<Tick>) {
    forall m, ms: nat :: 0 <= m < |ticks| ==> Follows(CountAfter(first, ticks[..m]), ticks[m], ms)
  }

  function Latest(ticks: seq<Tick>): nat {
    if ticks == [] then 0
    else if ticks[|ticks| - 1].clock.Some? then ticks[|ticks| - 1].clock.value
    else Latest(ticks[..|ticks| - 1])
  }

  lemma {:induction false} LatestBefore(ticks: seq<Tick>, n: nat, m: nat)
    requires Forward(ticks) && n <= m < |ticks| && ticks[m].clock.Some?
    ensures Latest(ticks[..n]) <= ticks[m].clock.value
  {
    if n > 0 && ticks[n - 1].clock.None? {
      LatestBefore(ticks, n - 1, m);
      assert ticks[..n][..n - 1] == ticks[..n - 1];
    }
  }

  /** What the stretch so far explains, once the peer has a session. */
  ghost predicate Explained(r: Rounds, times: seq<nat>, t: Option<Tally>, now: nat) {
    if t.None? then times == [] else Explains(r, times, t.value, now)
  }

  lemma TickExplained(r: Rounds, times: seq<nat>, t: Option<Tally>, tick: Tick, now: nat, ms: nat) returns (r': Rounds)
    requires Explained(r, times, t, now) && now <= ms && Follows(t, tick, ms) && AtMoment(tick, ms)
    requires tick.tally.Some? && !tick.verdict.Cleared?
    ensures Explained(r', times + (if tick.verdict.Tried? then [ms] else []), tick.tally, ms)
  {
    var base := Begun(t, ms);
    if t.None? {
      NoneYet(base, ms);
      r' := CountExplained(Rounds([], [], [], 0), [], base, tick.tally.value, ms, ms, tick.verdict);
    } else {
      r' := CountExplained(r, times, base, tick.tally.value, now, ms, tick.verdict);
    }
  }

  lemma {:induction false} StretchExplained(first: Option<Tally>, ticks: seq<Tick>) returns (r: Rounds)
    requires Forward(ticks) && Uncleared(ticks) && Chained(first, ticks)
    requires forall m :: 0 <= m < |ticks| && ticks[m].verdict.Tried? ==> ticks[m].clock.Some?
    ensures Explained(r, Tries(ticks), CountAfter(first, ticks), Latest(ticks))
  {
    if ticks == [] {
      r := Rounds([], [], [], 0);
      if first.Some? {
        NoneYet(first.value, 0);
      }
    } else {
      var n := |ticks| - 1;
      var rest, last := ticks[..n], ticks[n];
      forall m, ms: nat | 0 <= m < n
        ensures Follows(CountAfter(first, rest[..m]), rest[m], ms)
      {
        assert rest[..m] == ticks[..m];
        assert Follows(CountAfter(first, ticks[..m]), ticks[m], ms);
      }
      r := StretchExplained(first, rest);
      var ms := if last.clock.Some? then last.clock.value else Latest(rest);
      if last.clock.Some? {
        LatestBefore(ticks, n, n);
      }
      assert Follows(CountAfter(first, ticks[..n]), ticks[n], ms);
      r := TickExplained(r, Tries(rest), CountAfter(first, rest), last, Latest(rest), ms);
    }
  }

  lemma TickFollows(b: Backend, step: Step, setup: Setup, q: Peer, ms: nat)
    ensures Follows(TallyOf(b.host, q), TickOf(b, step, setup, q), ms)
    ensures TickOf(b, step, setup, q).verdict.Tried? ==> TickOf(b, step, setup, q).clock.Some?
  {
    if ClockOf(step).Some? ==> ms == ClockOf(step).value {
      StepCounted(b, step, setup, q, ms);
    }
  }

  lemma TicksChained(b: Backend, steps: seq<Step>, setup: Setup, q: Peer, m: nat, ms: nat)
    requires m < |steps|
    ensures var ticks := Ticks(b, steps, setup, q);
            && Follows(CountAfter(TallyOf(b.host, q), ticks[..m]), ticks[m], ms)
            && (ticks[m].verdict.Tried? ==> ticks[m].clock.Some?)
  {
    TickFollows(From(b, steps[..m], setup), steps[m], setup, q, ms);
    CountIs(b, steps, setup, q, m);
  }

  lemma CountIs(b: Backend, steps: seq<Step>, setup: Setup, q: Peer, m: nat)
    requires m <= |steps|
    ensures CountAfter(TallyOf(b.host, q), Ticks(b, steps, setup, q)[..m]) == TallyOf(From(b, steps[..m], setup).host, q)
  {
    if m > 0 {
      assert steps[..m][..m - 1] == steps[..m - 1];
    }
  }

  /** Over every run whose clock never goes back: in any stretch of it in which a peer keeps its session and
      does not prove the code, at most ten of its attempts are counted in any closed two minutes. */
  lemma AttemptsInTime(init: Env, first: seq<Step>, more: seq<Step>, setup: Setup, q: Peer, t: nat)
    requires var ticks := Ticks(After(init, first, setup), more, setup, q); Forward(ticks) && Uncleared(ticks)
    ensures |Within(Tries(Ticks(After(init, first, setup), more, setup, q)), t, PAIRING_ATTEMPT_WINDOW_MS)| <= 10
  {
    var b, ticks := After(init, first, setup), Ticks(After(init, first, setup), more, setup, q);
    forall m, ms: nat | 0 <= m < |ticks|
      ensures Follows(CountAfter(TallyOf(b.host, q), ticks[..m]), ticks[m], ms)
      ensures ticks[m].verdict.Tried? ==> ticks[m].clock.Some?
    {
      TicksChained(b, more, setup, q, m, ms);
    }
    var r := StretchExplained(TallyOf(b.host, q), ticks);
    SpacedCount(Tries(ticks), TWICE, t, PAIRING_ATTEMPT_WINDOW_MS);
  }
}
