/**
 What runs do to the outbound queues and to the set of sessions: every queued packet is accounted for,
 and peers that have not been approved cannot crowd the host.
 */
module LoadRuns {
  import opened Bytes
  import opened Wrappers
  import opened Transport
  import opened Outbound
  import opened Sessions
  import opened Router
  import opened Runtime
  import opened HostRun
  import opened Finite
  import Admission

  // ---------------------------------------------------------------------------------------------
  // The outbound ledger of a run
  // ---------------------------------------------------------------------------------------------

  function MoveOf(q: Queues<Body>, fate: Fate): seq<Move<Body>> {
    if Popped(q).None? then []
    else
      match fate
      case Taken => [Send]
      case WouldBlock => [Bounce]
      case _ => [Lose]
  }

  function FlushMoves(b: Backend, fates: seq<Fate>): seq<Move<Body>>
    decreases |fates|
  {
    if fates == [] then []
    else
      var one := FlushOne(b, fates[0]);
      MoveOf(b.queues, fates[0]) + if one.more then FlushMoves(one.done.backend, fates[1..]) else []
  }

  function Enqueues(items: seq<Outgoing<Body>>): seq<Move<Body>> {
    if items == [] then [] else Enqueues(items[..|items| - 1]) + [Enqueue(items[|items| - 1])]
  }

  /** What routing answers a poll with, as it is queued. */
  function Answers(b: Backend, i: PollInput, setup: Setup): seq<Outgoing<Body>>
    requires Routes(b, i) && RoutedOf(b, i, setup).result.Ok?
  {
    var routed := RoutedOf(b, i, setup);
    WithDisplays(routed.host, i.received.peer, routed.result.value, i.displays, i.env).1.outbound
  }

  function StepMoves(b: Backend, step: Step, setup: Setup): seq<Move<Body>> {
    match step
    case PollStep(i) =>
      FlushMoves(b, i.before) +
      if Routes(b, i) && RoutedOf(b, i, setup).result.Ok?
      then Enqueues(Answers(b, i, setup)) + FlushMoves(BeforeLastFlush(b, i, setup), i.after)
      else []
    case FlushStep(fates) => FlushMoves(b, fates)
    case MediaStep(packets, video, order) => Enqueues(MediaFor(MediaPeers(b.host, order), packets))
    case _ => []
  }

  function RunMoves(init: Env, steps: seq<Step>, setup: Setup, n: nat): seq<Move<Body>>
    requires n <= |steps|
  {
    if n == 0 then [] else RunMoves(init, steps, setup, n - 1) + StepMoves(At(init, steps, setup, n - 1), steps[n - 1], setup)
  }

  function FailedFlush(b: Backend, fates: seq<Fate>): nat {
    if Flush(b, fates).ok then 0 else 1
  }

  function FailuresOf(b: Backend, step: Step, setup: Setup): nat {
    match step
    case PollStep(i) =>
      FailedFlush(b, i.before) +
      if Routes(b, i) && RoutedOf(b, i, setup).result.Ok? then FailedFlush(BeforeLastFlush(b, i, setup), i.after) else 0
    case FlushStep(fates) => FailedFlush(b, fates)
    case _ => 0
  }

  /** How many flushes returned an error. */
  function Failures(init: Env, steps: seq<Step>, setup: Setup, n: nat): nat
    requires n <= |steps|
  {
    if n == 0 then 0 else Failures(init, steps, setup, n - 1) + FailuresOf(At(init, steps, setup, n - 1), steps[n - 1], setup)
  }

  /** The backend's queues and counters are those of the ledger. */
  ghost predicate Tallied(b: Backend, moves: seq<Move<Body>>, lost: nat) {
    var l := Account(moves);
    && l.queues == b.queues
    && |l.pushed| == b.metrics.queued
    && Outbound.Count(l.departed, Sent) == b.metrics.sent
    && Outbound.Count(l.departed, LostToError) == lost
  }

  lemma AccountNext(moves: seq<Move<Body>>, move: Move<Body>)
    ensures Account(moves + [move]) == Apply1(Account(moves), move)
  {
    assert (moves + [move])[..|moves|] == moves;
  }

  lemma CountNext(departed: seq<Departure<Body>>, d: Departure<Body>, cause: Cause)
    ensures Outbound.Count(departed + [d], cause) == Outbound.Count(departed, cause) + if d.cause == cause then 1 else 0
  {
    assert (departed + [d])[..|departed|] == departed;
  }

  /** The ledger after a flush attempt that popped a packet. */
  lemma AttemptAccounts(moves: seq<Move<Body>>, fate: Fate)
    requires Popped(Account(moves).queues).Some?
    ensures var l, l' := Account(moves), Account(moves + MoveOf(Account(moves).queues, fate));
            && l'.pushed == l.pushed
            && l'.queues == (if fate == WouldBlock then AfterPushFront(AfterPop(l.queues), Popped(l.queues).value) else AfterPop(l.queues))
            && Outbound.Count(l'.departed, Sent) == Outbound.Count(l.departed, Sent) + (if fate == Taken then 1 else 0)
            && Outbound.Count(l'.departed, LostToError) == Outbound.Count(l.departed, LostToError) + (if fate == Taken || fate == WouldBlock then 0 else 1)
  {
    var l := Account(moves);
    match fate {
      case Taken =>
        AccountNext(moves, Send);
        LeaveCounts(l, Sent);
      case WouldBlock =>
        AccountNext(moves, Bounce);
      case _ =>
        AccountNext(moves, Lose);
        LeaveCounts(l, LostToError);
    }
  }

  lemma LeaveCounts(l: Ledger<Body>, cause: Cause)
    requires Popped(l.queues).Some? && cause != DroppedOldest
    ensures var l' := Leave(l, cause);
            && l'.pushed == l.pushed && l'.queues == AfterPop(l.queues)
            && Outbound.Count(l'.departed, Sent) == Outbound.Count(l.departed, Sent) + (if cause == Sent then 1 else 0)
            && Outbound.Count(l'.departed, LostToError) == Outbound.Count(l.departed, LostToError) + (if cause == Sent then 0 else 1)
  {
    CountNext(l.departed, Departure(Popped(l.queues).value, cause), Sent);
    CountNext(l.departed, Departure(Popped(l.queues).value, cause), LostToError);
  }

  lemma FlushOneTallied(b: Backend, fate: Fate, moves: seq<Move<Body>>, lost: nat)
    requires Tallied(b, moves, lost)
    ensures Tallied(FlushOne(b, fate).done.backend, moves + MoveOf(b.queues, fate), lost + if FlushOne(b, fate).done.ok then 0 else 1)
  {
    if Popped(b.queues).None? {
      assert moves + [] == moves;
    } else {
      AttemptAccounts(moves, fate);
    }
  }

  lemma {:induction false} FlushTallied(b: Backend, fates: seq<Fate>, moves: seq<Move<Body>>, lost: nat)
    requires Tallied(b, moves, lost)
    ensures Tallied(Flush(b, fates).backend, moves + FlushMoves(b, fates), lost + FailedFlush(b, fates))
    decreases |fates|
  {
    if fates == [] {
      assert moves + [] == moves;
    } else {
      var one, first := FlushOne(b, fates[0]), MoveOf(b.queues, fates[0]);
      FlushOneTallied(b, fates[0], moves, lost);
      if one.more {
        Append(moves, first, FlushMoves(one.done.backend, fates[1..]));
        FlushTallied(one.done.backend, fates[1..], moves + first, lost);
      } else {
        assert first + [] == first;
      }
    }
  }

  lemma EnqueueTallied(b: Backend, item: Outgoing<Body>, moves: seq<Move<Body>>, lost: nat)
    requires Tallied(b, moves, lost)
    ensures Tallied(b.(queues := AfterPush(b.queues, item), metrics := b.metrics.(queued := b.metrics.queued + 1)), moves + [Enqueue(item)], lost)
  {
    AccountNext(moves, Enqueue(item));
    var l := Account(moves);
    if |l.queues.Queue(item.packet.channel)| == MAX_PER_CHANNEL {
      var d := Departure(l.queues.Queue(item.packet.channel)[0], DroppedOldest);
      CountNext(l.departed, d, Sent);
      CountNext(l.departed, d, LostToError);
    }
  }

  lemma {:induction false} EnqueuedTallied(b: Backend, items: seq<Outgoing<Body>>, moves: seq<Move<Body>>, lost: nat)
    requires Tallied(b, moves, lost)
    ensures Tallied(Enqueued(b, items), moves + Enqueues(items), lost)
  {
    if items == [] {
      assert moves + [] == moves;
    } else {
      var prefix, last := items[..|items| - 1], items[|items| - 1];
      EnqueuedTallied(b, prefix, moves, lost);
      EnqueueTallied(Enqueued(b, prefix), last, moves + Enqueues(prefix), lost);
      Append(moves, Enqueues(prefix), [Enqueue(last)]);
    }
  }

  lemma TalliedByQueues(b: Backend, b': Backend, moves: seq<Move<Body>>, lost: nat)
    requires Tallied(b, moves, lost)
    requires b'.queues == b.queues && b'.metrics.queued == b.metrics.queued && b'.metrics.sent == b.metrics.sent
    ensures Tallied(b', moves, lost)
  {
  }

  lemma AnsweredQueues(b: Backend, peer: Peer, o: Outcome, displays: nat, env: Env)
    ensures var b', e := Answered(b, peer, o, displays, env).0, Enqueued(b, WithDisplays(b.host, peer, o, displays, env).1.outbound);
            b'.queues == e.queues && b'.metrics.queued == e.metrics.queued && b'.metrics.sent == e.metrics.sent
  {
  }

  lemma PollTallied(b: Backend, i: PollInput, setup: Setup, moves: seq<Move<Body>>, lost: nat)
    requires Tallied(b, moves, lost)
    ensures Tallied(Poll(b, i, setup).backend, moves + StepMoves(b, PollStep(i), setup), lost + FailuresOf(b, PollStep(i), setup))
  {
    PollPhases(b, i, setup);
    FlushTallied(b, i.before, moves, lost);
    var f, moves1, lost1 := Flush(b, i.before).backend, moves + FlushMoves(b, i.before), lost + FailedFlush(b, i.before);
    if Routes(b, i) && RoutedOf(b, i, setup).result.Ok? {
      var b1 := Arriving(b, i).(host := RoutedOf(b, i, setup).host);
      TalliedByQueues(f, b1, moves1, lost1);
      EnqueuedTallied(b1, Answers(b, i, setup), moves1, lost1);
      AnsweredQueues(b1, i.received.peer, RoutedOf(b, i, setup).result.value, i.displays, i.env);
      var moves2 := moves1 + Enqueues(Answers(b, i, setup));
      TalliedByQueues(Enqueued(b1, Answers(b, i, setup)), BeforeLastFlush(b, i, setup), moves2, lost1);
      FlushTallied(BeforeLastFlush(b, i, setup), i.after, moves2, lost1);
      var last := FlushMoves(BeforeLastFlush(b, i, setup), i.after);
      Append(moves1, Enqueues(Answers(b, i, setup)), last);
      Append(moves, FlushMoves(b, i.before), Enqueues(Answers(b, i, setup)) + last);
    } else {
      assert FlushMoves(b, i.before) + [] == FlushMoves(b, i.before);
      TalliedByQueues(f, Poll(b, i, setup).backend, moves1, lost1);
    }
  }

  lemma StepTallied(b: Backend, step: Step, setup: Setup, moves: seq<Move<Body>>, lost: nat)
    requires Tallied(b, moves, lost)
    ensures Tallied(Take(b, step, setup), moves + StepMoves(b, step, setup), lost + FailuresOf(b, step, setup))
  {
    match step {
      case PollStep(i) => PollTallied(b, i, setup, moves, lost);
      case FlushStep(fates) => FlushTallied(b, fates, moves, lost);
      case MediaStep(packets, video, order) =>
        var items := MediaFor(MediaPeers(b.host, order), packets);
        EnqueuedTallied(b, items, moves, lost);
        TalliedByQueues(Enqueued(b, items), QueueMedia(b, packets, video, order), moves + Enqueues(items), lost);
      case _ =>
        assert moves + [] == moves;
        TalliedByQueues(b, Take(b, step, setup), moves, lost);
    }
  }

  lemma {:induction false} RunTallied(init: Env, steps: seq<Step>, setup: Setup, n: nat)
    requires n <= |steps|
    ensures Tallied(At(init, steps, setup, n), RunMoves(init, steps, setup, n), Failures(init, steps, setup, n))
  {
    if n > 0 {
      RunTallied(init, steps, setup, n - 1);
      AtNext(init, steps, setup, n - 1);
      StepTallied(At(init, steps, setup, n - 1), steps[n - 1], setup, RunMoves(init, steps, setup, n - 1), Failures(init, steps, setup, n - 1));
    }
  }

  /** Over every run: every packet queued was sent, dropped as the oldest of a full queue, is still
      queued, or was the one packet a flush lost to the error it returned; each channel stays in order;
      and never are more than four full queues waiting. */
  lemma NothingUnaccounted(init: Env, steps: seq<Step>, setup: Setup, n: nat)
    requires n <= |steps|
    ensures var b, l := At(init, steps, setup, n), Account(RunMoves(init, steps, setup, n));
            && b.metrics.queued == b.metrics.sent + b.queues.dropped + b.queues.Len() + Failures(init, steps, setup, n)
            && l.queues == b.queues && (forall channel :: InOrder(l, channel))
            && b.queues.highWatermark == l.peak <= 4 * MAX_PER_CHANNEL
  {
    RunTallied(init, steps, setup, n);
    Conservation(RunMoves(init, steps, setup, n));
  }

  // ---------------------------------------------------------------------------------------------
  // Who has a session
  // ---------------------------------------------------------------------------------------------

  /** No session appears, disappears or becomes pending, and no attempt is counted. */
  predicate Settled(h: Host, h': Host) {
    && h'.sessions.Keys == h.sessions.Keys
    && h'.attempts == h.attempts
    && PendingPeers(h'.sessions) <= PendingPeers(h.sessions)
  }

  lemma PutSettled(h: Host, peer: Peer, s: Session)
    requires peer in h.sessions && (s.permission == Pending ==> h.sessions[peer].permission == Pending)
    ensures Settled(h, h.Put(peer, s))
  {
  }

  lemma SettledThen(h: Host, h1: Host, h2: Host)
    requires Settled(h, h1) && Settled(h1, h2)
    ensures Settled(h, h2)
  {
  }

  lemma BegunSettled(h: Host, peer: Peer, setup: Setup, env: Env)
    requires peer in h.sessions
    ensures Settled(h, ExchangeBegun(h, peer, setup, env)) && Settled(h, ExchangeBegun(Advanced(h), peer, setup, env))
  {
  }

  lemma RotateSettled(h: Host, env: Env)
    ensures Settled(h, Rotate(h, env)) && Settled(h, Unexpired(h, env))
  {
  }

  lemma VerifySettled(h: Host, peer: Peer, proof: seq<byte>, setup: Setup, env: Env)
    requires peer in h.sessions
    ensures Settled(h, VerifyProof(h, peer, proof, setup, env).0)
  {
    var h', s := VerifyProof(h, peer, proof, setup, env).0, RefreshAttempts(h.sessions[peer], env.ms);
    var verified := h.Put(peer, s.(codeVerified := true, pendingPairing := None, pairingAttempts := 0));
    if VerifyProof(h, peer, proof, setup, env).1.None? {
      assert h' == Rotate(verified, env);
      PutSettled(h, peer, verified.sessions[peer]);
      RotateSettled(verified, env);
      SettledThen(h, verified, h');
    } else {
      assert h' == h.Put(peer, h'.sessions[peer]);
      PutSettled(h, peer, h'.sessions[peer]);
    }
  }

  lemma AutoApprovedSettled(h: Host, peer: Peer, s: Session, setup: Setup, env: Env)
    requires peer in h.sessions && s.permission == Approved
    ensures Settled(h, ExchangeBegun(Advanced(h.Put(peer, s)), peer, setup, env))
  {
    PutSettled(h, peer, s);
    BegunSettled(h.Put(peer, s), peer, setup, env);
    SettledThen(h, h.Put(peer, s), ExchangeBegun(Advanced(h.Put(peer, s)), peer, setup, env));
  }

  lemma ProofSettled(h: Host, peer: Peer, s: Session, proof: seq<byte>, setup: Setup, env: Env)
    requires peer in h.sessions && s.permission == h.sessions[peer].permission
    ensures Settled(h, h.Put(peer, s)) && Settled(h, VerifyProof(h.Put(peer, s), peer, proof, setup, env).0)
  {
    PutSettled(h, peer, s);
    VerifySettled(h.Put(peer, s), peer, proof, setup, env);
    SettledThen(h, h.Put(peer, s), VerifyProof(h.Put(peer, s), peer, proof, setup, env).0);
  }

  lemma PairingSettled(h: Host, peer: Peer, body: Body, events: seq<BackendEvent>, setup: Setup, env: Env)
    requires peer in h.sessions
    ensures Settled(h, RoutePairing(h, peer, body, events, setup, env).host)
  {
    if body.PairingRequestBody? {
      var key := if body.publicKey == [] then None else Some(body.publicKey);
      var s := h.sessions[peer].(deviceId := Some(body.deviceName), deviceKey := key, pendingAuth := None);
      ProofSettled(h, peer, s, body.proof, setup, env);
      AutoApprovedSettled(h, peer, s.(permission := Approved, deviceId := Some(setup.crypto.trustedDevice(key, peer))), setup, env);
    }
  }

  lemma AuthSettled(h: Host, peer: Peer, body: Body, events: seq<BackendEvent>, setup: Setup, env: Env)
    requires peer in h.sessions
    ensures Settled(h, RouteAuth(h, peer, body, events, setup, env).host)
  {
    if body.AuthResponseBody? {
      var s := h.sessions[peer];
      PutSettled(h, peer, s.(permission := Rejected, pendingAuth := None));
      if s.pendingAuth.Some? {
        AutoApprovedSettled(h, peer, s.(permission := Approved, deviceId := Some(s.pendingAuth.value.expectedDevice), pendingAuth := None), setup, env);
      }
    }
  }

  lemma ApprovedSettled(h: Host, peer: Peer, packet: Packet, events: seq<BackendEvent>, setup: Setup, env: Env)
    requires peer in h.sessions
    ensures Settled(h, RouteApproved(h, peer, packet, events, setup, env).host)
  {
    var h' := RouteApproved(h, peer, packet, events, setup, env).host;
    assert h'.sessions == h.sessions || h' == h.Put(peer, h'.sessions[peer]);
  }

  lemma KnownSettled(h: Host, peer: Peer, packet: Packet, events: seq<BackendEvent>, setup: Setup, env: Env)
    requires peer in h.sessions
    ensures Settled(h, RouteKnown(h, peer, packet, events, setup, env).host)
  {
    PairingSettled(h, peer, packet.payload, events, setup, env);
    AuthSettled(h, peer, packet.payload, events, setup, env);
    var s := h.sessions[peer];
    if s.permission == Approved {
      ApprovedSettled(h, peer, packet, events, setup, env);
    } else {
      var device := if s.deviceId.Some? then s.deviceId else Some(setup.crypto.devDevice(peer));
      var approved := h.Put(peer, s.(permission := Approved, deviceId := device));
      PutSettled(h, peer, approved.sessions[peer]);
      ApprovedSettled(approved, peer, packet, events + [PeerAutoApproved(peer)], setup, env);
      SettledThen(h, approved, RouteApproved(approved, peer, packet, events + [PeerAutoApproved(peer)], setup, env).host);
    }
  }

  /** Routing makes sure of the sender's session, if it is let in, and settles. */
  lemma RouteSettled(h: Host, peer: Peer, packet: Packet, setup: Setup, env: Env)
    ensures var h0 := Attempted(h, peer, env);
            Settled(if LetIn(h, peer, env) then h0.Ensure(peer, env) else h0, Route(h, peer, packet, setup, env).host)
  {
    if LetIn(h, peer, env) {
      var h1, seen := Attempted(h, peer, env).Ensure(peer, env), Seen(Attempted(h, peer, env), peer, env);
      PutSettled(h1, peer, seen.sessions[peer]);
      if seen.sessions[peer].permission != Rejected {
        var events := if seen.sessions[peer].packetsReceived == 1 then [SessionDiscovered(peer)] else [];
        KnownSettled(seen, peer, packet, events, setup, env);
        SettledThen(h1, seen, RouteKnown(seen, peer, packet, events, setup, env).host);
      }
    }
  }

  lemma FlushOneSettled(b: Backend, fate: Fate)
    ensures Settled(b.host, FlushOne(b, fate).done.backend.host)
  {
    var popped := Popped(b.queues);
    if popped.Some? && Sealing(b.host, popped.value.peer, fate) {
      PutSettled(b.host, popped.value.peer, AfterSealing(b.host, popped.value.peer).sessions[popped.value.peer]);
    }
  }

  lemma {:induction false} FlushSettled(b: Backend, fates: seq<Fate>)
    ensures Settled(b.host, Flush(b, fates).backend.host)
    decreases |fates|
  {
    if fates != [] {
      var one := FlushOne(b, fates[0]);
      FlushOneSettled(b, fates[0]);
      if one.more {
        FlushSettled(one.done.backend, fates[1..]);
        SettledThen(b.host, one.done.backend.host, Flush(one.done.backend, fates[1..]).backend.host);
      }
    }
  }

  lemma ScreeningSettled(h: Host, peer: Peer, d: Datagram)
    ensures Settled(h, AfterScreening(h, peer, d))
  {
    if d.Secure? && IsSecure(h.sessions, peer) {
      PutSettled(h, peer, AfterOpening(h, peer, d.sealed).sessions[peer]);
    }
  }

  // ---------------------------------------------------------------------------------------------
  // One session at most, per step
  // ---------------------------------------------------------------------------------------------

  lemma PollSettled(b: Backend, i: PollInput, setup: Setup)
    ensures Handles(b, i) ==> Settled(b.host, Routing(b, i))
    ensures if Routes(b, i) then Settled(RoutedOf(b, i, setup).host, Poll(b, i, setup).backend.host)
            else Settled(b.host, Poll(b, i, setup).backend.host)
  {
    PollPhases(b, i, setup);
    FlushSettled(b, i.before);
    if Handles(b, i) {
      ScreeningSettled(Screening(b, i), i.received.peer, i.received.datagram);
      SettledThen(b.host, Screening(b, i), Routing(b, i));
      if Routes(b, i) && RoutedOf(b, i, setup).result.Ok? {
        AnsweringKeepsSessions(b, i, setup);
        FlushSettled(BeforeLastFlush(b, i, setup), i.after);
        SettledThen(RoutedOf(b, i, setup).host, BeforeLastFlush(b, i, setup).host, Poll(b, i, setup).backend.host);
      }
    }
  }

  /** A poll that routes: the sender's session is made sure of only if it is let in. */
  lemma PollOpens(b: Backend, i: PollInput, setup: Setup)
    requires Routes(b, i)
    ensures var h0 := Attempted(Routing(b, i), i.received.peer, i.env);
            Settled(if LetIn(Routing(b, i), i.received.peer, i.env) then h0.Ensure(i.received.peer, i.env) else h0,
                    Poll(b, i, setup).backend.host)
  {
    var h0, peer := Attempted(Routing(b, i), i.received.peer, i.env), i.received.peer;
    PollSettled(b, i, setup);
    RouteSettled(Routing(b, i), peer, Screened(Screening(b, i), peer, i.received.datagram).value, setup, i.env);
    SettledThen(if LetIn(Routing(b, i), peer, i.env) then h0.Ensure(peer, i.env) else h0,
                RoutedOf(b, i, setup).host, Poll(b, i, setup).backend.host);
  }

  lemma ApproveSettled(h: Host, peer: Peer, device: Text, permissions: Permissions, setup: Setup, env: Env)
    ensures Settled(h.Ensure(peer, env), Approve(h, peer, device, permissions, env))
    ensures Settled(h.Ensure(peer, env), ApproveWithResponse(h, peer, device, permissions, setup, env).0)
  {
    var h1 := Approve(h, peer, device, permissions, env);
    PutSettled(h.Ensure(peer, env), peer, h1.sessions[peer]);
    BegunSettled(h1, peer, setup, env);
    SettledThen(h.Ensure(peer, env), h1, ExchangeBegun(Advanced(h1), peer, setup, env));
  }

  lemma IssueSettled(h: Host, peer: Peer, env: Env)
    ensures Settled(Unexpired(h, env).Ensure(peer, env), IssueChallenge(h, peer, env).0)
  {
    var h1 := Unexpired(h, env).Ensure(peer, env);
    PutSettled(h1, peer, IssueChallenge(h, peer, env).0.sessions[peer]);
  }

  // ---------------------------------------------------------------------------------------------
  // At most fifty pending
  // ---------------------------------------------------------------------------------------------

  predicate Crowded(h: Host) {
    |PendingPeers(h.sessions)| > MAX_PENDING_SESSIONS
  }

  /** The order lists every pending peer, as iterating the whole map does. */
  ghost predicate Lists(order: seq<Peer>, h: Host) {
    forall p :: p in PendingPeers(h.sessions) ==> p in order
  }

  lemma SettledUncrowded(h: Host, h': Host, order: seq<Peer>)
    requires Settled(h, h') && !Crowded(h)
    ensures !Crowded(h') && (Lists(order, h) ==> Lists(order, h'))
  {
    SubsetCardinality(PendingPeers(h'.sessions), PendingPeers(h.sessions));
  }

  lemma EnsureUncrowded(h: Host, h': Host, peer: Peer, env: Env)
    requires !Crowded(h) && Lists(env.order, h) && Settled(h.Ensure(peer, env), h')
    ensures !Crowded(h')
  {
    PendingBounded(h.sessions, peer, env.order, env.instant, env.ms);
    SettledUncrowded(h.Ensure(peer, env), h', []);
  }

  ghost predicate ListsPending(b: Backend, step: Step) {
    match step
    case PollStep(i) => Lists(i.env.order, b.host)
    case ApproveStep(_, _, _, _, _, env) => Lists(env.order, b.host)
    case RejectStep(_, env) => Lists(env.order, b.host)
    case ChallengeStep(_, _, _, env) => Lists(env.order, b.host)
    case IssueStep(_, env) => Lists(env.order, b.host)
    case _ => true
  }

  lemma PollUncrowded(b: Backend, i: PollInput, setup: Setup)
    requires !Crowded(b.host) && Lists(i.env.order, b.host)
    ensures !Crowded(Poll(b, i, setup).backend.host)
  {
    PollSettled(b, i, setup);
    if Routes(b, i) {
      var h0 := Attempted(Routing(b, i), i.received.peer, i.env);
      PollOpens(b, i, setup);
      SettledUncrowded(b.host, Routing(b, i), i.env.order);
      if LetIn(Routing(b, i), i.received.peer, i.env) {
        EnsureUncrowded(h0, Poll(b, i, setup).backend.host, i.received.peer, i.env);
      } else {
        SettledUncrowded(h0, Poll(b, i, setup).backend.host, []);
      }
    } else {
      SettledUncrowded(b.host, Poll(b, i, setup).backend.host, []);
    }
  }

  lemma HostStepUncrowded(b: Backend, step: Step, setup: Setup)
    requires !step.PollStep? && !step.FlushStep? && !step.MediaStep?
    requires !Crowded(b.host) && ListsPending(b, step)
    ensures !Crowded(HostStep(b.host, step, setup))
  {
    var h, h' := b.host, HostStep(b.host, step, setup);
    match step {
      case ApproveStep(peer, device, permissions, notify, taken, env) =>
        ApproveSettled(h, peer, device, permissions, setup, env);
        EnsureUncrowded(h, h', peer, env);
      case RejectStep(peer, env) =>
        PutSettled(h.Ensure(peer, env), peer, h'.sessions[peer]);
        EnsureUncrowded(h, h', peer, env);
      case ChallengeStep(peer, device, permissions, env) =>
        PutSettled(h.Ensure(peer, env), peer, h'.sessions[peer]);
        EnsureUncrowded(h, h', peer, env);
      case IssueStep(peer, env) =>
        RotateSettled(h, env);
        SettledUncrowded(h, Unexpired(h, env), env.order);
        IssueSettled(h, peer, env);
        EnsureUncrowded(Unexpired(h, env), h', peer, env);
      case PermissionsStep(device, permissions) =>
        SettledUncrowded(h, h', []);
    }
  }

  lemma StepUncrowded(b: Backend, step: Step, setup: Setup)
    requires !Crowded(b.host) && ListsPending(b, step)
    ensures !Crowded(Take(b, step, setup).host)
  {
    match step {
      case PollStep(i) => PollUncrowded(b, i, setup);
      case FlushStep(fates) =>
        FlushSettled(b, fates);
        SettledUncrowded(b.host, Flush(b, fates).backend.host, []);
      case MediaStep(packets, video, order) =>
      case _ => HostStepUncrowded(b, step, setup);
    }
  }

  /** Over every run in which each step's hash order lists the peers there are, at most fifty sessions
      are ever pending. */
  lemma {:induction false} NeverCrowded(init: Env, steps: seq<Step>, setup: Setup, n: nat)
    requires n <= |steps|
    requires forall k :: 0 <= k < n ==> ListsPending(At(init, steps, setup, k), steps[k])
    ensures |PendingPeers(At(init, steps, setup, n).host.sessions)| <= MAX_PENDING_SESSIONS
  {
    if n == 0 {
      assert PendingPeers(map[]) == {};
    } else {
      NeverCrowded(init, steps, setup, n - 1);
      AtNext(init, steps, setup, n - 1);
      StepUncrowded(At(init, steps, setup, n - 1), steps[n - 1], setup);
    }
  }

  // ---------------------------------------------------------------------------------------------
  // Admissions
  // ---------------------------------------------------------------------------------------------

  /** The attempt a step makes: a packet, routed for a peer without a session. */
  function AttemptsIn(b: Backend, step: Step): seq<Admission.Attempt> {
    if step.PollStep? && Routes(b, step.input) && step.input.received.peer !in Routing(b, step.input).sessions
    then [Admission.Attempt(step.input.received.peer.ip, step.input.env.instant)]
    else []
  }

  function AttemptLog(init: Env, steps: seq<Step>, setup: Setup, n: nat): seq<Admission.Attempt>
    requires n <= |steps|
  {
    if n == 0 then [] else AttemptLog(init, steps, setup, n - 1) + AttemptsIn(At(init, steps, setup, n - 1), steps[n - 1])
  }

  ghost predicate Counted(h: Host, log: seq<Admission.Attempt>) {
    forall ip :: AttemptsOf(h.attempts, ip) == Admission.Remembered(log, ip)
  }

  lemma RememberedNext(log: seq<Admission.Attempt>, a: Admission.Attempt, ip: nat)
    ensures Admission.Remembered(log + [a], ip)
            == if a.ip == ip then AfterAttempt(Admission.Remembered(log, ip), a.at) else Admission.Remembered(log, ip)
  {
    assert (log + [a])[..|log|] == log;
  }

  lemma AttemptedCounted(h: Host, peer: Peer, env: Env, log: seq<Admission.Attempt>)
    requires Counted(h, log) && peer !in h.sessions
    ensures Counted(Attempted(h, peer, env), log + [Admission.Attempt(peer.ip, env.instant)])
  {
    forall ip
      ensures AttemptsOf(Attempted(h, peer, env).attempts, ip) == Admission.Remembered(log + [Admission.Attempt(peer.ip, env.instant)], ip)
    {
      RememberedNext(log, Admission.Attempt(peer.ip, env.instant), ip);
      assert AttemptsOf(h.attempts, ip) == Admission.Remembered(log, ip);
    }
  }

  lemma SettledCounted(h: Host, h': Host, log: seq<Admission.Attempt>)
    requires Counted(h, log) && h'.attempts == h.attempts
    ensures Counted(h', log)
  {
  }

  lemma PollCounted(b: Backend, i: PollInput, setup: Setup, log: seq<Admission.Attempt>)
    requires Counted(b.host, log)
    ensures Counted(Poll(b, i, setup).backend.host, log + AttemptsIn(b, PollStep(i)))
  {
    assert log + [] == log;
    PollSettled(b, i, setup);
    if Routes(b, i) {
      PollOpens(b, i, setup);
      SettledCounted(b.host, Routing(b, i), log);
      var h0, peer := Attempted(Routing(b, i), i.received.peer, i.env), i.received.peer;
      if peer !in Routing(b, i).sessions {
        AttemptedCounted(Routing(b, i), peer, i.env, log);
      }
      SettledCounted(h0, Poll(b, i, setup).backend.host, log + AttemptsIn(b, PollStep(i)));
    } else {
      SettledCounted(b.host, Poll(b, i, setup).backend.host, log);
    }
  }

  lemma OperatorKeepsAttempts(h: Host, step: Step, setup: Setup)
    requires !step.PollStep? && !step.FlushStep? && !step.MediaStep?
    ensures HostStep(h, step, setup).attempts == h.attempts
  {
    match step {
      case ApproveStep(peer, device, permissions, notify, taken, env) => ApproveSettled(h, peer, device, permissions, setup, env);
      case IssueStep(peer, env) => IssueSettled(h, peer, env);
      case _ =>
    }
  }

  lemma StepCounted(b: Backend, step: Step, setup: Setup, log: seq<Admission.Attempt>)
    requires Counted(b.host, log)
    ensures Counted(Take(b, step, setup).host, log + AttemptsIn(b, step))
  {
    assert log + [] == log;
    match step {
      case PollStep(i) => PollCounted(b, i, setup, log);
      case FlushStep(fates) =>
        FlushSettled(b, fates);
        SettledCounted(b.host, Flush(b, fates).backend.host, log);
      case MediaStep(packets, video, order) =>
      case _ =>
        OperatorKeepsAttempts(b.host, step, setup);
        SettledCounted(b.host, HostStep(b.host, step, setup), log);
    }
  }

  lemma {:induction false} RunCounted(init: Env, steps: seq<Step>, setup: Setup, n: nat)
    requires n <= |steps|
    ensures Counted(At(init, steps, setup, n).host, AttemptLog(init, steps, setup, n))
  {
    if n > 0 {
      RunCounted(init, steps, setup, n - 1);
      AtNext(init, steps, setup, n - 1);
      StepCounted(At(init, steps, setup, n - 1), steps[n - 1], setup, AttemptLog(init, steps, setup, n - 1));
    }
  }

  /** The clock of a run's polls never goes back. */
  ghost predicate Ticking(steps: seq<Step>) {
    forall i, j :: 0 <= i <= j < |steps| && steps[i].PollStep? && steps[j].PollStep? ==> steps[i].input.env.instant <= steps[j].input.env.instant
  }

  lemma {:induction false} LogMonotone(init: Env, steps: seq<Step>, setup: Setup, n: nat)
    requires n <= |steps| && Ticking(steps)
    ensures Admission.Monotone(AttemptLog(init, steps, setup, n))
    ensures forall k, j :: 0 <= k < |AttemptLog(init, steps, setup, n)| && n <= j < |steps| && steps[j].PollStep? ==>
              AttemptLog(init, steps, setup, n)[k].at <= steps[j].input.env.instant
  {
    if n > 0 {
      LogMonotone(init, steps, setup, n - 1);
    }
  }

  /** A peer without a session has one after its packet was routed exactly when the sliding window of
      its address, as the run has filled it, admits it. */
  lemma AdmittedBySlidingWindow(init: Env, steps: seq<Step>, setup: Setup, n: nat)
    requires n < |steps| && AttemptsIn(At(init, steps, setup, n), steps[n]) != []
    ensures var a := AttemptsIn(At(init, steps, setup, n), steps[n])[0];
            steps[n].input.received.peer in At(init, steps, setup, n + 1).host.sessions
            <==> Admits(Admission.Remembered(AttemptLog(init, steps, setup, n), a.ip), a.at)
  {
    var b, i := At(init, steps, setup, n), steps[n].input;
    RunCounted(init, steps, setup, n);
    AtNext(init, steps, setup, n);
    PollSettled(b, i, setup);
    PollOpens(b, i, setup);
    assert AttemptsOf(b.host.attempts, i.received.peer.ip) == Admission.Remembered(AttemptLog(init, steps, setup, n), i.received.peer.ip);
  }

  /** Over every run with a clock that never goes back, at most twelve peers of one address are admitted
      in any closed ten-second interval. */
  lemma AdmissionsBounded(init: Env, steps: seq<Step>, setup: Setup, ip: nat, t: nat)
    requires Ticking(steps)
    ensures |Admission.Within(Admission.Admitted(AttemptLog(init, steps, setup, |steps|), ip), t, PENDING_ATTEMPT_WINDOW)| <= MAX_PENDING_ATTEMPTS_PER_IP
  {
    LogMonotone(init, steps, setup, |steps|);
    Admission.AdmissionBound(AttemptLog(init, steps, setup, |steps|), ip, t);
  }
}
