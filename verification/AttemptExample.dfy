/**
 Two runs in which one peer makes many pairing attempts: ten in two minutes, the most a peer gets while it
 keeps its session and does not prove the code; and fourteen, when it proves the code in between.
 */
module AttemptExample {
  import opened Bytes
  import opened Wrappers
  import opened Transport
  import opened Finite
  import opened Sessions
  import opened Admission
  import opened Router
  import opened Runtime
  import opened HostRun
  import opened AuthRuns
  import opened AttemptRuns
  import Example
  import PairingRuns
  import PlainRuns

  /** Every pairing code is proved by the same byte. */
  function OneProof(): Setup {
    Example.Accepting().(crypto := Example.Accepting().crypto.(proof := (_, _) => [5]))
  }

  ghost predicate ProvedByOne(setup: Setup) {
    setup.policy == RequireApproval && forall code, salt :: setup.crypto.proof(code, salt) == [5]
  }

  function AtMs(ms: u64): Env {
    Example.Moment().(ms := ms)
  }

  function AllTaken(): seq<Fate> {
    [Taken, Taken, Taken, Taken, Taken, Taken, Taken, Taken]
  }

  /** A pairing request with the proof. */
  function Attempt(peer: Peer, env: Env, fates: seq<Fate>): Step {
    PollStep(Example.Hearing(peer, PairingRequest, PairingRequestBody([7], [5], [1]), env, fates))
  }

  lemma {:induction false} TakenFlushes(b: Backend, fates: seq<Fate>)
    requires forall i :: 0 <= i < |fates| ==> fates[i] == Taken
    ensures Flush(b, fates).ok
    decreases |fates|
  {
    if fates != [] && FlushOne(b, fates[0]).more {
      TakenFlushes(FlushOne(b, fates[0]).done.backend, fates[1..]);
    }
  }

  /** The peer is pending, with that count, and with a challenge to answer at `ms` or with none. */
  predicate Trying(h: Host, peer: Peer, t: Tally, challenged: bool, ms: nat) {
    && TallyOf(h, peer) == Some(t)
    && var s := h.sessions[peer];
    && s.permission == Pending && s.secure.None?
    && if challenged then s.pendingPairing.Some? && ms <= Min(s.pendingPairing.value.expiresAtMs, h.codeExpiresMs) else s.pendingPairing.None?
  }

  function AttemptBody(): Body {
    PairingRequestBody([7], [5], [1])
  }

  function TallyAfter(t: Tally, ms: nat, challenged: bool): Tally {
    var now := Fresh(t, ms);
    if challenged then Tally(0, now.start) else Tally(now.count + 1, now.start)
  }

  lemma AttemptVerified(h: Host, peer: Peer, setup: Setup, env: Env, t: Tally, challenged: bool)
    requires ProvedByOne(setup) && Trying(h, peer, t, challenged, env.ms) && Fresh(t, env.ms).count < MAX_PAIRING_CODE_ATTEMPTS
    ensures var (h', failure) := VerifyProof(h, peer, [5], setup, env);
            && VerdictOf(failure) == (if challenged then Cleared else Tried)
            && Trying(h', peer, TallyAfter(t, env.ms, challenged), false, 0)
  {
  }

  lemma AttemptChecked(h: Host, peer: Peer, packet: Packet, setup: Setup, env: Env, t: Tally, challenged: bool)
    requires setup.policy == RequireApproval && Trying(h, peer, t, challenged, env.ms)
    requires packet.messageKind == PairingRequest && packet.payload == AttemptBody()
    ensures var check := PairingRuns.ProofCheck(h, peer, packet, setup, env);
            check.Some? && Trying(check.value, peer, t, challenged, env.ms)
  {
  }

  lemma AttemptRouted(h: Host, peer: Peer, packet: Packet, setup: Setup, env: Env, t: Tally, challenged: bool)
    requires ProvedByOne(setup) && Trying(h, peer, t, challenged, env.ms) && Fresh(t, env.ms).count < MAX_PAIRING_CODE_ATTEMPTS
    requires packet.messageKind == PairingRequest && packet.payload == AttemptBody()
    ensures RouteVerdict(h, peer, packet, setup, env, peer) == if challenged then Cleared else Tried
    ensures Trying(Route(h, peer, packet, setup, env).host, peer, TallyAfter(t, env.ms, challenged), false, 0)
  {
    AttemptChecked(h, peer, packet, setup, env, t, challenged);
    AttemptVerified(PairingRuns.ProofCheck(h, peer, packet, setup, env).value, peer, setup, env, t, challenged);
    PairingRuns.RouteAfterCheck(h, peer, packet, setup, env);
  }

  lemma TryingSame(h: Host, h': Host, peer: Peer, t: Tally, challenged: bool, ms: nat)
    requires PlainRuns.SameButCodec(h, h', peer) && Trying(h, peer, t, challenged, ms)
    requires challenged ==> h'.codeExpiresMs == h.codeExpiresMs
    ensures Trying(h', peer, t, challenged, ms)
  {
  }

  lemma RoutingTrying(b: Backend, i: PollInput, setup: Setup, peer: Peer, t: Tally, challenged: bool)
    requires Flush(b, i.before).ok && i.received.Arrived? && i.received.peer == peer && i.received.datagram.Plain?
    requires Trying(b.host, peer, t, challenged, i.env.ms)
    ensures Trying(Routing(b, i), peer, t, challenged, i.env.ms)
  {
    PlainRuns.RoutingSameButCodec(b, i, peer);
    PairingRuns.PollQuiet(b, i, setup, peer);
    TryingSame(b.host, Routing(b, i), peer, t, challenged, i.env.ms);
  }

  /** What an attempt of a pending peer is to it: counted, or a success when it was challenged. */
  lemma Attempted(b: Backend, peer: Peer, env: Env, fates: seq<Fate>, setup: Setup, t: Tally, challenged: bool)
    requires ProvedByOne(setup) && (forall i :: 0 <= i < |fates| ==> fates[i] == Taken)
    requires Trying(b.host, peer, t, challenged, env.ms) && Fresh(t, env.ms).count < MAX_PAIRING_CODE_ATTEMPTS
    ensures var step := Attempt(peer, env, fates);
            && StepVerdict(b, step, setup, peer) == (if challenged then Cleared else Tried)
            && Trying(Take(b, step, setup).host, peer, TallyAfter(t, env.ms, challenged), false, 0)
  {
    var i, packet := Example.Hearing(peer, PairingRequest, AttemptBody(), env, fates), TransportPacket(1, Control, PairingRequest, 0, AttemptBody());
    TakenFlushes(b, fates);
    RoutingTrying(b, i, setup, peer, t, challenged);
    ScreenedPending(b, i, peer);
    AttemptRouted(Routing(b, i), peer, packet, setup, env, t, challenged);
    AttemptPolled(b, i, packet, setup, peer, TallyAfter(t, env.ms, challenged));
  }

  lemma AttemptPolled(b: Backend, i: PollInput, packet: Packet, setup: Setup, peer: Peer, t: Tally)
    requires Routes(b, i) && Screened(Screening(b, i), i.received.peer, i.received.datagram).value == packet && i.received.peer == peer
    requires Trying(Route(Routing(b, i), peer, packet, setup, i.env).host, peer, t, false, 0)
    ensures Trying(Poll(b, i, setup).backend.host, peer, t, false, 0)
  {
    PlainRuns.AfterRoutingHolds(b, i, setup, peer);
    TryingSame(RoutedOf(b, i, setup).host, Poll(b, i, setup).backend.host, peer, t, false, 0);
  }

  lemma ScreenedPending(b: Backend, i: PollInput, peer: Peer)
    requires Flush(b, i.before).ok && i.received.Arrived? && i.received.peer == peer && i.received.datagram.Plain?
    requires peer in b.host.sessions && b.host.sessions[peer].permission == Pending && b.host.sessions[peer].secure.None?
    ensures Routes(b, i) && Screened(Screening(b, i), peer, i.received.datagram).value == i.received.datagram.packet
  {
    PlainRuns.FlushSameButCodec(b, i.before, peer);
  }

  /** The peer is challenged, in the window it is in. */
  lemma Challenged(b: Backend, peer: Peer, env: Env, setup: Setup, t: Tally)
    requires Trying(b.host, peer, t, false, 0) && Fresh(t, env.ms) == t && t.count < MAX_PAIRING_CODE_ATTEMPTS
    ensures Trying(Take(b, IssueStep(peer, env), setup).host, peer, t, true, env.ms)
  {
    var h1 := Unexpired(b.host, env);
    assert Trying(h1, peer, t, false, 0) && env.ms <= h1.codeExpiresMs;
    assert h1.Ensure(peer, env) == h1;
  }

  // ---------------------------------------------------------------------------------------------
  // Plans
  // ---------------------------------------------------------------------------------------------

  /** The peer tries a proof, or the operator issues it a challenge. */
  datatype Act = Try(ms: u64) | Ask(ms: u64)

  datatype Standing = Standing(tally: Tally, challenged: bool)

  function StepFor(a: Act, peer: Peer): Step {
    match a
    case Try(ms) => Attempt(peer, AtMs(ms), AllTaken())
    case Ask(ms) => IssueStep(peer, AtMs(ms))
  }

  function StepsFor(plan: seq<Act>, peer: Peer): (r: seq<Step>)
    ensures |r| == |plan|
  {
    seq(|plan|, k requires 0 <= k < |plan| => StepFor(plan[k], peer))
  }

  /** How the peer stands after an act, by the count alone. */
  predicate Leads(s: Standing, a: Act, s': Standing) {
    match a
    case Try(ms) => Fresh(s.tally, ms).count < MAX_PAIRING_CODE_ATTEMPTS && s' == Standing(TallyAfter(s.tally, ms, s.challenged), false)
    case Ask(ms) => !s.challenged && Fresh(s.tally, ms) == s.tally && s.tally.count < MAX_PAIRING_CODE_ATTEMPTS && s' == Standing(s.tally, true)
  }

  function TickFor(s: Standing, a: Act, s': Standing): Tick {
    Tick(Some(a.ms), if a.Ask? then Idle else if s.challenged then Cleared else Tried, Some(s'.tally))
  }

  /** The peer stands so, and may still answer a challenge at `ms`. */
  predicate Stands(h: Host, peer: Peer, s: Standing, ms: nat) {
    Trying(h, peer, s.tally, s.challenged, ms)
  }

  lemma ActTaken(b: Backend, peer: Peer, a: Act, setup: Setup, s: Standing, s': Standing)
    requires ProvedByOne(setup) && Stands(b.host, peer, s, a.ms) && Leads(s, a, s')
    ensures var b' := Take(b, StepFor(a, peer), setup);
            && StepVerdict(b, StepFor(a, peer), setup, peer) == TickFor(s, a, s').verdict
            && Stands(b'.host, peer, s', a.ms)
  {
    match a {
      case Try(ms) => Attempted(b, peer, AtMs(ms), AllTaken(), setup, s.tally, s.challenged);
      case Ask(ms) => Challenged(b, peer, AtMs(ms), setup, s.tally);
    }
  }

  /** The plan, from one standing to the next; a challenge is answered at the moment it is issued. */
  ghost predicate Planned(plan: seq<Act>, standings: seq<Standing>) {
    && |standings| == |plan| + 1
    && (forall k :: 0 <= k < |plan| ==> Leads(standings[k], plan[k], standings[k + 1]))
    && (forall k :: 0 < k < |plan| && standings[k].challenged ==> plan[k - 1].ms == plan[k].ms)
  }

  lemma FromLast(b: Backend, steps: seq<Step>, setup: Setup, k: nat)
    requires k < |steps|
    ensures From(b, steps[..k + 1], setup) == Take(From(b, steps[..k], setup), steps[k], setup)
  {
    assert steps[..k + 1][..k] == steps[..k];
  }

  lemma StandsNext(b: Backend, peer: Peer, plan: seq<Act>, standings: seq<Standing>, setup: Setup, k: nat)
    requires ProvedByOne(setup) && Planned(plan, standings) && k < |plan|
    requires Stands(From(b, StepsFor(plan, peer)[..k], setup).host, peer, standings[k], plan[k].ms)
    ensures Stands(From(b, StepsFor(plan, peer)[..k + 1], setup).host, peer, standings[k + 1], plan[k].ms)
    ensures StepVerdict(From(b, StepsFor(plan, peer)[..k], setup), StepsFor(plan, peer)[k], setup, peer)
            == TickFor(standings[k], plan[k], standings[k + 1]).verdict
  {
    ActTaken(From(b, StepsFor(plan, peer)[..k], setup), peer, plan[k], setup, standings[k], standings[k + 1]);
    FromLast(b, StepsFor(plan, peer), setup, k);
  }

  lemma {:induction false} StandsAt(b: Backend, peer: Peer, plan: seq<Act>, standings: seq<Standing>, setup: Setup, k: nat)
    requires ProvedByOne(setup) && Planned(plan, standings) && !standings[0].challenged && k < |plan|
    requires Stands(b.host, peer, standings[0], 0)
    ensures Stands(From(b, StepsFor(plan, peer)[..k], setup).host, peer, standings[k], plan[k].ms)
  {
    if k > 0 {
      StandsAt(b, peer, plan, standings, setup, k - 1);
      StandsNext(b, peer, plan, standings, setup, k - 1);
    }
  }

  lemma TickAt(b: Backend, peer: Peer, plan: seq<Act>, standings: seq<Standing>, setup: Setup, k: nat)
    requires ProvedByOne(setup) && Planned(plan, standings) && !standings[0].challenged && k < |plan|
    requires Stands(b.host, peer, standings[0], 0)
    ensures Ticks(b, StepsFor(plan, peer), setup, peer)[k] == TickFor(standings[k], plan[k], standings[k + 1])
  {
    StandsAt(b, peer, plan, standings, setup, k);
    StandsNext(b, peer, plan, standings, setup, k);
    FromLast(b, StepsFor(plan, peer), setup, k);
  }

  function TicksFor(plan: seq<Act>, standings: seq<Standing>): (r: seq<Tick>)
    requires |standings| == |plan| + 1
    ensures |r| == |plan|
  {
    seq(|plan|, k requires 0 <= k < |plan| => TickFor(standings[k], plan[k], standings[k + 1]))
  }

  lemma TicksPlanned(b: Backend, peer: Peer, plan: seq<Act>, standings: seq<Standing>, setup: Setup)
    requires ProvedByOne(setup) && Planned(plan, standings) && !standings[0].challenged
    requires Stands(b.host, peer, standings[0], 0)
    ensures Ticks(b, StepsFor(plan, peer), setup, peer) == TicksFor(plan, standings)
  {
    forall k | 0 <= k < |plan|
      ensures Ticks(b, StepsFor(plan, peer), setup, peer)[k] == TicksFor(plan, standings)[k]
    {
      TickAt(b, peer, plan, standings, setup, k);
    }
  }

  // ---------------------------------------------------------------------------------------------
  // Counting the attempts of a plan
  // ---------------------------------------------------------------------------------------------

  lemma {:induction false} TriesThen(first: seq<Tick>, more: seq<Tick>)
    ensures Tries(first + more) == Tries(first) + Tries(more)
  {
    if more == [] {
      assert first + more == first;
    } else {
      TriesThen(first, more[..|more| - 1]);
      assert (first + more)[..|first + more| - 1] == first + more[..|more| - 1];
    }
  }

  /** Attempts, all counted, at moments close together. */
  lemma {:induction false} AllTried(ticks: seq<Tick>, t: nat, window: nat)
    requires forall k :: 0 <= k < |ticks| ==> ticks[k].verdict.Tried? && ticks[k].clock.Some? && t <= ticks[k].clock.value <= t + window
    ensures |Tries(ticks)| == |ticks| && forall k :: 0 <= k < |ticks| ==> t <= Tries(ticks)[k] <= t + window
  {
    if ticks != [] {
      AllTried(ticks[..|ticks| - 1], t, window);
    }
  }

  lemma {:induction false} NoneTried(ticks: seq<Tick>)
    requires forall k :: 0 <= k < |ticks| ==> !ticks[k].verdict.Tried?
    ensures Tries(ticks) == []
  {
    if ticks != [] {
      NoneTried(ticks[..|ticks| - 1]);
    }
  }

  lemma AllWithin(times: seq<nat>, t: nat, window: nat)
    requires forall k :: 0 <= k < |times| ==> t <= times[k] <= t + window
    ensures |Within(times, t, window)| == |times|
  {
    assert Within(times, t, window) == Indices(|times|);
  }

  // ---------------------------------------------------------------------------------------------
  // The runs
  // ---------------------------------------------------------------------------------------------

  /** The first call for the peer, at time zero. */
  function Opening(peer: Peer): seq<Step> {
    [ChallengeStep(peer, [7], ALL_ALLOWED, AtMs(0))]
  }

  lemma Opened(peer: Peer, setup: Setup)
    ensures Stands(After(AtMs(0), Opening(peer), setup).host, peer, Standing(Tally(0, 0), false), 0)
  {
    assert Opening(peer)[..0] == [];
    assert PendingPeers(map[]) == {};
  }

  /** Five attempts at the end of a window, and five as the next one starts. */
  function TenActs(w: u64): (r: seq<Act>)
    requires w > 0
    ensures |r| == 10
  {
    seq(10, k => Try(if k < 5 then w - 1 else w))
  }

  function TenStandings(w: u64): (r: seq<Standing>)
    ensures |r| == 11
  {
    seq(11, k requires 0 <= k => Standing(if k <= 5 then Tally(k, 0) else Tally(k - 5, w), false))
  }

  lemma TenPlanned(w: u64)
    requires w == PAIRING_ATTEMPT_WINDOW_MS
    ensures Planned(TenActs(w), TenStandings(w))
    ensures var ticks := TicksFor(TenActs(w), TenStandings(w));
            Forward(ticks) && Uncleared(ticks) && |Within(Tries(ticks), w - 1, w)| == 10
  {
    var ticks := TicksFor(TenActs(w), TenStandings(w));
    AllTried(ticks, w - 1, w);
    AllWithin(Tries(ticks), w - 1, w);
  }

  /** The bound of ten is reached: in this run. */
  lemma TenInTwoMinutes() returns (init: Env, first: seq<Step>, more: seq<Step>, setup: Setup, peer: Peer, t: nat)
    ensures var ticks := Ticks(After(init, first, setup), more, setup, peer);
            && Forward(ticks) && Uncleared(ticks)
            && |Within(Tries(ticks), t, PAIRING_ATTEMPT_WINDOW_MS)| == 10
  {
    var w := PAIRING_ATTEMPT_WINDOW_MS;
    init, setup, peer, t := AtMs(0), OneProof(), Peer(1, 1), w - 1;
    first, more := Opening(peer), StepsFor(TenActs(w), peer);
    Opened(peer, setup);
    TenPlanned(w);
    TicksPlanned(After(init, first, setup), peer, TenActs(w), TenStandings(w), setup);
  }

  /** Four attempts and a success at the end of a window, five more attempts then, and five as the next one
      starts. */
  function FourteenActs(w: u64): (r: seq<Act>)
    requires w > 0
    ensures |r| == 16
  {
    seq(16, k => if k == 4 then Ask(w - 1) else Try(if k < 11 then w - 1 else w))
  }

  function FourteenStandings(w: u64): (r: seq<Standing>)
    ensures |r| == 17
  {
    seq(17, k requires 0 <= k => Standing(if k <= 4 then Tally(k, 0) else if k == 5 then Tally(4, 0) else if k <= 11 then Tally(k - 6, 0)
                                          else Tally(k - 11, w), k == 5))
  }

  lemma FourteenPlanned(w: u64)
    requires w == PAIRING_ATTEMPT_WINDOW_MS
    ensures Planned(FourteenActs(w), FourteenStandings(w))
    ensures Forward(TicksFor(FourteenActs(w), FourteenStandings(w)))
  {
  }

  lemma FourteenTried(w: u64)
    requires w == PAIRING_ATTEMPT_WINDOW_MS
    ensures |Within(Tries(TicksFor(FourteenActs(w), FourteenStandings(w))), w - 1, w)| == 14
  {
    var ticks := TicksFor(FourteenActs(w), FourteenStandings(w));
    AllTried(ticks[..4], w - 1, w);
    NoneTried(ticks[4..6]);
    AllTried(ticks[6..], w - 1, w);
    ThreeTries(ticks[..4], ticks[4..6], ticks[6..]);
    Parts(ticks, 4, 6);
    AllWithin(Tries(ticks), w - 1, w);
  }

  lemma ThreeTries(a: seq<Tick>, b: seq<Tick>, c: seq<Tick>)
    ensures Tries(a + b + c) == Tries(a) + Tries(b) + Tries(c)
  {
    TriesThen(a, b);
    TriesThen(a + b, c);
  }

  lemma Parts<T>(s: seq<T>, i: nat, j: nat)
    requires i <= j <= |s|
    ensures s == s[..i] + s[i..j] + s[j..]
  {
  }

  /** A success clears the count, so "at most ten attempts in two minutes" fails across one: in this run the
      peer keeps its session throughout. */
  lemma FourteenAcrossSuccess() returns (init: Env, first: seq<Step>, more: seq<Step>, setup: Setup, peer: Peer, t: nat)
    ensures var ticks := Ticks(After(init, first, setup), more, setup, peer);
            && Forward(ticks) && (forall m :: 0 <= m < |ticks| ==> ticks[m].tally.Some?)
            && |Within(Tries(ticks), t, PAIRING_ATTEMPT_WINDOW_MS)| == 14
  {
    var w := PAIRING_ATTEMPT_WINDOW_MS;
    init, setup, peer, t := AtMs(0), OneProof(), Peer(1, 1), w - 1;
    first, more := Opening(peer), StepsFor(FourteenActs(w), peer);
    Opened(peer, setup);
    FourteenPlanned(w);
    FourteenTried(w);
    TicksPlanned(After(init, first, setup), peer, FourteenActs(w), FourteenStandings(w), setup);
  }
}
