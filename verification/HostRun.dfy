/** Runs of the host backend: every call the host program can make, in any order. */
module HostRun {
  import opened Transport
  import opened Outbound
  import opened Sessions
  import opened Router
  import opened Runtime

  datatype Step =
    | PollStep(input: PollInput)
    | FlushStep(fates: seq<Fate>)
    | ApproveStep(peer: Peer, device: Text, permissions: Permissions, notify: bool, taken: nat, env: Env)
    | RejectStep(peer: Peer, env: Env)
    | ChallengeStep(peer: Peer, device: Text, permissions: Permissions, env: Env)
    | IssueStep(peer: Peer, env: Env)
    | PermissionsStep(device: Text, permissions: Permissions)
    | MediaStep(packets: seq<Packet>, video: bool, order: seq<Peer>)

  /** The packets an operator's call sends by itself, past the queues. */
  function Notices(h: Host, step: Step, setup: Setup): seq<Packet> {
    match step
    case ApproveStep(peer, device, permissions, notify, taken, env) =>
      if notify then ApproveWithResponse(h, peer, device, permissions, setup, env).1 else []
    case RejectStep(peer, env) => [RejectWithResponse(h, peer, env).1]
    case ChallengeStep(peer, device, permissions, env) =>
      var packet := ChallengeTrusted(h, peer, device, permissions, env).1;
      if packet.Some? then [packet.value] else []
    case IssueStep(peer, env) =>
      var issued := IssueChallenge(h, peer, env).1;
      if issued.Some? then [issued.value.1] else []
    case _ => []
  }

  /** What of them is handed to the socket: an approval stops at the first send that fails. */
  function NoticeEmissions(h: Host, step: Step, setup: Setup): seq<Emission> {
    match step
    case ApproveStep(peer, device, permissions, notify, taken, env) => Handed(peer, Notices(h, step, setup), taken)
    case RejectStep(peer, env) => Handed(peer, Notices(h, step, setup), 1)
    case ChallengeStep(peer, device, permissions, env) => Handed(peer, Notices(h, step, setup), 1)
    case IssueStep(peer, env) => Handed(peer, Notices(h, step, setup), 1)
    case _ => []
  }

  function HostStep(h: Host, step: Step, setup: Setup): Host
    requires !step.PollStep? && !step.FlushStep? && !step.MediaStep?
  {
    match step
    case ApproveStep(peer, device, permissions, notify, taken, env) =>
      if notify then ApproveWithResponse(h, peer, device, permissions, setup, env).0 else Approve(h, peer, device, permissions, env)
    case RejectStep(peer, env) => RejectWithResponse(h, peer, env).0
    case ChallengeStep(peer, device, permissions, env) => ChallengeTrusted(h, peer, device, permissions, env).0
    case IssueStep(peer, env) => IssueChallenge(h, peer, env).0
    case PermissionsStep(device, permissions) => h.(sessions := WithPermissions(h.sessions, device, permissions))
  }

  function Take(b: Backend, step: Step, setup: Setup): Backend {
    match step
    case PollStep(input) => Poll(b, input, setup).backend
    case FlushStep(fates) => Flush(b, fates).backend
    case MediaStep(packets, video, order) => QueueMedia(b, packets, video, order)
    case _ => b.(host := HostStep(b.host, step, setup))
  }

  function Start(env: Env): Backend {
    Backend(Host(map[], map[], 1, env.code, Later(env.ms, PAIRING_CODE_TTL_MS)), NoPackets(), NO_METRICS)
  }

  /** The backend after a run, from a fresh start. */
  function After(init: Env, steps: seq<Step>, setup: Setup): Backend {
    if steps == [] then Start(init) else Take(After(init, steps[..|steps| - 1], setup), steps[|steps| - 1], setup)
  }

  /** The backend when the first `i` steps have been taken. */
  function At(init: Env, steps: seq<Step>, setup: Setup, i: nat): Backend
    requires i <= |steps|
  {
    After(init, steps[..i], setup)
  }

  lemma AtNext(init: Env, steps: seq<Step>, setup: Setup, i: nat)
    requires i < |steps|
    ensures At(init, steps, setup, i + 1) == Take(At(init, steps, setup, i), steps[i], setup)
  {
    assert steps[..i + 1][..i] == steps[..i];
  }

  /** What a poll does after its first flush, or nothing when the flush failed or nothing arrived. */
  predicate Handles(b: Backend, i: PollInput) {
    Flush(b, i.before).ok && i.received.Arrived?
  }

  /** The host that screens the arrival, and the host that routes it. */
  function Screening(b: Backend, i: PollInput): Host {
    Flush(b, i.before).backend.host
  }

  function Routing(b: Backend, i: PollInput): Host
    requires i.received.Arrived?
  {
    AfterScreening(Screening(b, i), i.received.peer, i.received.datagram)
  }

  predicate Routes(b: Backend, i: PollInput) {
    Handles(b, i) && Screened(Screening(b, i), i.received.peer, i.received.datagram).Ok?
  }

  function RoutedOf(b: Backend, i: PollInput, setup: Setup): Routed
    requires Routes(b, i)
  {
    Route(Routing(b, i), i.received.peer, Screened(Screening(b, i), i.received.peer, i.received.datagram).value, setup, i.env)
  }

  /** The backend that routes the arrival. */
  function Arriving(b: Backend, i: PollInput): Backend
    requires i.received.Arrived?
  {
    var f := Flush(b, i.before).backend;
    f.(metrics := f.metrics.(received := f.metrics.received + 1), host := Routing(b, i))
  }

  /** The backend after routing and queueing the answers, before the last flush. */
  function BeforeLastFlush(b: Backend, i: PollInput, setup: Setup): Backend
    requires Routes(b, i) && RoutedOf(b, i, setup).result.Ok?
  {
    Answered(Arriving(b, i).(host := RoutedOf(b, i, setup).host), i.received.peer, RoutedOf(b, i, setup).result.value, i.displays, i.env).0
  }

  /** A poll, phase by phase. */
  lemma PollPhases(b: Backend, i: PollInput, setup: Setup)
    ensures !Handles(b, i) ==> Poll(b, i, setup).backend == Flush(b, i.before).backend && Poll(b, i, setup).input.None?
    ensures Handles(b, i) && !Routes(b, i) ==>
              Poll(b, i, setup).backend == Arriving(b, i) && Poll(b, i, setup).input.None?
    ensures Routes(b, i) ==>
              && Poll(b, i, setup).input == RoutedOf(b, i, setup).input
              && (RoutedOf(b, i, setup).result.Err? ==> Poll(b, i, setup).backend == Arriving(b, i).(host := RoutedOf(b, i, setup).host))
              && (RoutedOf(b, i, setup).result.Ok? ==>
                    Poll(b, i, setup).backend == Flush(BeforeLastFlush(b, i, setup), i.after).backend)
  {
    if Routes(b, i) {
      var packet := Screened(Screening(b, i), i.received.peer, i.received.datagram).value;
      PollRoutes(b, i, setup);
      CompletedPhases(Arriving(b, i), i.received.peer, packet, RoutedOf(b, i, setup), i);
    }
  }

  lemma PollRoutes(b: Backend, i: PollInput, setup: Setup)
    requires Routes(b, i)
    ensures var packet := Screened(Screening(b, i), i.received.peer, i.received.datagram).value;
            Poll(b, i, setup) == AfterFlush(Flush(b, i.before), Completed(Arriving(b, i), i.received.peer, packet, RoutedOf(b, i, setup), i))
  {
    var packet := Screened(Screening(b, i), i.received.peer, i.received.datagram).value;
    assert HandleArrival(Flush(b, i.before).backend, i.received.peer, i.received.datagram, i, setup)
           == RouteArrival(Arriving(b, i), i.received.peer, packet, i, setup);
  }

  lemma CompletedPhases(b: Backend, peer: Peer, packet: Packet, routed: Routed, i: PollInput)
    ensures Completed(b, peer, packet, routed, i).input == routed.input
    ensures routed.result.Err? ==> Completed(b, peer, packet, routed, i).backend == b.(host := routed.host)
    ensures routed.result.Ok? ==>
              Completed(b, peer, packet, routed, i).backend
              == Flush(Answered(b.(host := routed.host), peer, routed.result.value, i.displays, i.env).0, i.after).backend
  {
  }

  /** Answering touches the sessions no more: it only advances the sequence number. */
  lemma AnsweringKeepsSessions(b: Backend, i: PollInput, setup: Setup)
    requires Routes(b, i) && RoutedOf(b, i, setup).result.Ok?
    ensures var h, r := BeforeLastFlush(b, i, setup).host, RoutedOf(b, i, setup).host;
            h == r || h == Advanced(r)
  {
  }
}
