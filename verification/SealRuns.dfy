/**
 No counter is used twice under one key until it wraps around, over every run of the host: a session id is
 drawn once, is offered to one peer, becomes at most one secure session, and that session's counter counts
 the seals, also of packets that were sealed and then handed back by a socket that would block.
 */
module SealRuns {
  import opened Bytes
  import opened Wrappers
  import opened Transport
  import opened Outbound
  import opened SessionWire
  import opened SecureChannel
  import opened Sessions
  import opened Router
  import opened Runtime
  import opened HostRun
  import opened ExchangeRuns
  import opened SecureRuns

  // ---------------------------------------------------------------------------------------------
  // The log of seals, for one session id
  // ---------------------------------------------------------------------------------------------

  ghost predicate Unused(log: seq<SealUse>, x: seq<byte>) {
    forall i :: 0 <= i < |log| ==> IdOf(log[i].key) != x
  }

  /** How often a key has been used. */
  function SealsUnder(log: seq<SealUse>, key: Key): nat {
    if log == [] then 0
    else SealsUnder(log[..|log| - 1], key) + if log[|log| - 1].key == key then 1 else 0
  }

  /** Every seal of the id used the counter that its place among the seals of its key gives. */
  predicate Numbered(log: seq<SealUse>, x: seq<byte>) {
    log == [] ||
    var before, last := log[..|log| - 1], log[|log| - 1];
    Numbered(before, x) && (IdOf(last.key) == x ==> last.counter == CounterOf(SealsUnder(before, last.key)))
  }

  /** A session's key is of its id. */
  predicate WellKeyed(h: Host, q: Peer) {
    IsSecure(h.sessions, q) ==> IdOf(SecureOf(h, q).ciphers.outbound) == SecureOf(h, q).sessionId
  }

  /** What the owner has: an offer nothing was sealed under, or the one session of the id, whose counter
      is that of the next seal under its key. */
  ghost predicate OwnsAlone(h: Host, p: Peer, log: seq<SealUse>, x: seq<byte>) {
    && (Offered(h, p, x) ==> !Held(h, p, x) && Unused(log, x))
    && (Held(h, p, x) ==> SecureOf(h, p).codec.sendCounter == CounterOf(SealsUnder(log, SecureOf(h, p).ciphers.outbound)))
  }

  ghost predicate Owned(h: Host, log: seq<SealUse>, x: seq<byte>, p: Peer, drawn: bool) {
    && Numbered(log, x)
    && OwnsAlone(h, p, log, x)
    && (!drawn ==> Unused(log, x) && Foreign(h, p, x))
    && forall q :: WellKeyed(h, q) && (q != p ==> Foreign(h, q, x))
  }

  lemma {:induction false} UnusedKey(log: seq<SealUse>, x: seq<byte>, key: Key)
    requires Unused(log, x) && IdOf(key) == x
    ensures SealsUnder(log, key) == 0
  {
    if log != [] {
      UnusedKey(log[..|log| - 1], x, key);
    }
  }

  lemma SealNext(log: seq<SealUse>, use: SealUse, x: seq<byte>, key: Key)
    ensures Numbered(log + [use], x) <==> Numbered(log, x) && (IdOf(use.key) == x ==> use.counter == CounterOf(SealsUnder(log, use.key)))
    ensures SealsUnder(log + [use], key) == SealsUnder(log, key) + if use.key == key then 1 else 0
  {
    assert (log + [use])[..|log|] == log;
  }

  lemma OwnerMoves(h: Host, h': Host, log: seq<SealUse>, x: seq<byte>, p: Peer, draw: Option<Bytes16>)
    requires OwnsAlone(h, p, log, x) && Moves(h, h', p, draw)
    requires draw == Some(x) ==> Unused(log, x) && Foreign(h, p, x)
    ensures OwnsAlone(h', p, log, x)
  {
    if Held(h', p, x) && Unused(log, x) {
      assert Completes(h, p, h'.sessions[p]) ==> IdOf(SecureOf(h', p).ciphers.outbound) == x;
      if IdOf(SecureOf(h', p).ciphers.outbound) == x {
        UnusedKey(log, x, SecureOf(h', p).ciphers.outbound);
      }
    }
  }

  lemma KeyedMoves(h: Host, h': Host, q: Peer, draw: Option<Bytes16>)
    requires WellKeyed(h, q) && Moves(h, h', q, draw)
    ensures WellKeyed(h', q)
  {
  }

  lemma MovesOwned(h: Host, h': Host, log: seq<SealUse>, x: seq<byte>, p: Peer, drawn: bool, draw: Option<Draw>)
    requires Owned(h, log, x, p, drawn) && Fair(draw, x, p, drawn)
    requires forall q :: Moves(h, h', q, ShareOf(draw, q))
    ensures Owned(h', log, x, p, drawn || Draws(draw, x))
  {
    assert Moves(h, h', p, ShareOf(draw, p));
    OwnerMoves(h, h', log, x, p, ShareOf(draw, p));
    if !drawn && !Draws(draw, x) {
      OtherMoves(h, h', x, p, ShareOf(draw, p));
    }
    forall q
      ensures WellKeyed(h', q) && (q != p ==> Foreign(h', q, x))
    {
      assert Moves(h, h', q, ShareOf(draw, q));
      KeyedMoves(h, h', q, ShareOf(draw, q));
      if q != p {
        OtherMoves(h, h', x, q, ShareOf(draw, q));
      }
    }
  }

  /** Sealing for a peer: the counter used is the next of that key. */
  lemma SealOwned(h: Host, peer: Peer, log: seq<SealUse>, x: seq<byte>, p: Peer, drawn: bool)
    requires Owned(h, log, x, p, drawn) && IsSecure(h.sessions, peer)
    ensures Owned(AfterSealing(h, peer), log + [SealUse(SecureOf(h, peer).ciphers.outbound, SecureOf(h, peer).codec.sendCounter)], x, p, drawn)
  {
    var h', secure := AfterSealing(h, peer), SecureOf(h, peer);
    var use := SealUse(secure.ciphers.outbound, secure.codec.sendCounter);
    assert WellKeyed(h, peer) && (peer != p ==> Foreign(h, peer, x));
    SealNext(log, use, x, use.key);
    CounterSuccessor(SealsUnder(log, use.key));
    if Held(h', p, x) && peer != p {
      assert WellKeyed(h, p);
      SealNext(log, use, x, SecureOf(h, p).ciphers.outbound);
    }
    forall q
      ensures WellKeyed(h', q) && (q != p ==> Foreign(h', q, x))
    {
      assert WellKeyed(h, q) && (q != p ==> Foreign(h, q, x));
    }
  }

  /** A flush, one attempt at a time. */
  lemma FlushStepwise(b: Backend, fates: seq<Fate>)
    requires fates != []
    ensures var one, f := FlushOne(b, fates[0]), Flush(b, fates);
            if one.more then
              var g := Flush(one.done.backend, fates[1..]);
              f.backend == g.backend && f.seals == one.done.seals + g.seals && f.emissions == one.done.emissions + g.emissions
            else f == one.done
  {
  }

  lemma {:induction false} FlushOwned(b: Backend, fates: seq<Fate>, log: seq<SealUse>, x: seq<byte>, p: Peer, drawn: bool)
    requires Owned(b.host, log, x, p, drawn)
    ensures Owned(Flush(b, fates).backend.host, log + Flush(b, fates).seals, x, p, drawn)
    decreases |fates|
  {
    if fates == [] {
      assert log + [] == log;
    } else {
      var one := FlushOne(b, fates[0]).done;
      FlushStepwise(b, fates);
      FlushOneOwned(b, fates[0], log, x, p, drawn);
      if FlushOne(b, fates[0]).more {
        var more := Flush(one.backend, fates[1..]).seals;
        Append(log, one.seals, more);
        FlushOwned(one.backend, fates[1..], log + one.seals, x, p, drawn);
      }
    }
  }

  lemma FlushOneOwned(b: Backend, fate: Fate, log: seq<SealUse>, x: seq<byte>, p: Peer, drawn: bool)
    requires Owned(b.host, log, x, p, drawn)
    ensures Owned(FlushOne(b, fate).done.backend.host, log + FlushOne(b, fate).done.seals, x, p, drawn)
  {
    assert log + [] == log;
    var popped := Popped(b.queues);
    if popped.Some? && Sealing(b.host, popped.value.peer, fate) {
      SealOwned(b.host, popped.value.peer, log, x, p, drawn);
    }
  }

  lemma StillOwned(h: Host, h': Host, log: seq<SealUse>, x: seq<byte>, p: Peer, drawn: bool)
    requires Owned(h, log, x, p, drawn)
    requires forall q :: Still(h, h', q)
    ensures Owned(h', log, x, p, drawn)
  {
    forall q
      ensures Moves(h, h', q, ShareOf(None, q))
    {
      assert Still(h, h', q);
    }
    MovesOwned(h, h', log, x, p, drawn, None);
  }

  /** Opening uses no counter of ours. */
  lemma ScreeningOwned(h: Host, peer: Peer, d: Datagram, log: seq<SealUse>, x: seq<byte>, p: Peer, drawn: bool)
    requires Owned(h, log, x, p, drawn)
    ensures Owned(AfterScreening(h, peer, d), log, x, p, drawn)
  {
    var h' := AfterScreening(h, peer, d);
    forall q
      ensures WellKeyed(h', q) && (q != p ==> Foreign(h', q, x))
    {
      assert WellKeyed(h, q);
      if q != p {
        assert Foreign(h, q, x);
      }
    }
  }

  // ---------------------------------------------------------------------------------------------
  // Runs
  // ---------------------------------------------------------------------------------------------

  function StepSeals(b: Backend, step: Step, setup: Setup): seq<SealUse> {
    match step
    case PollStep(i) => Poll(b, i, setup).seals
    case FlushStep(fates) => Flush(b, fates).seals
    case _ => []
  }

  /** Every use of a counter under a key in the first `i` steps. */
  function SealLog(init: Env, steps: seq<Step>, setup: Setup, i: nat): seq<SealUse>
    requires i <= |steps|
  {
    if i == 0 then [] else SealLog(init, steps, setup, i - 1) + StepSeals(At(init, steps, setup, i - 1), steps[i - 1], setup)
  }

  /** The seals of the flush a poll ends with. */
  function LastSeals(b: Backend, i: PollInput, setup: Setup): seq<SealUse> {
    if Routes(b, i) && RoutedOf(b, i, setup).result.Ok? then Flush(BeforeLastFlush(b, i, setup), i.after).seals else []
  }

  lemma CompletedSeals(b: Backend, peer: Peer, packet: Packet, routed: Routed, i: PollInput)
    ensures Completed(b, peer, packet, routed, i).seals
            == if routed.result.Err? then []
               else Flush(Answered(b.(host := routed.host), peer, routed.result.value, i.displays, i.env).0, i.after).seals
  {
  }

  lemma PollSeals(b: Backend, i: PollInput, setup: Setup)
    ensures Poll(b, i, setup).seals == Flush(b, i.before).seals + LastSeals(b, i, setup)
  {
    if Routes(b, i) {
      PollRoutes(b, i, setup);
      CompletedSeals(Arriving(b, i), i.received.peer, Screened(Screening(b, i), i.received.peer, i.received.datagram).value, RoutedOf(b, i, setup), i);
    } else {
      assert Flush(b, i.before).seals + [] == Flush(b, i.before).seals;
    }
  }

  lemma PollOwned(b: Backend, i: PollInput, setup: Setup, log: seq<SealUse>, x: seq<byte>, p: Peer, drawn: bool)
    requires Owned(b.host, log, x, p, drawn)
    requires Fair(DrawOf(PollStep(i)), x, p, drawn)
    ensures Owned(Poll(b, i, setup).backend.host, log + Poll(b, i, setup).seals, x, p, drawn || Draws(DrawOf(PollStep(i)), x))
  {
    PollSeals(b, i, setup);
    PollPhases(b, i, setup);
    var log1, last := log + Flush(b, i.before).seals, LastSeals(b, i, setup);
    assert log + (Flush(b, i.before).seals + last) == log1 + last;
    FlushOwned(b, i.before, log, x, p, drawn);
    if !Handles(b, i) {
      assert log1 + [] == log1;
      DrawnLater(Screening(b, i), log1, x, p, drawn, DrawOf(PollStep(i)));
    } else {
      HandledOwned(b, i, setup, log1, x, p, drawn);
    }
  }

  lemma DrawnLater(h: Host, log: seq<SealUse>, x: seq<byte>, p: Peer, drawn: bool, draw: Option<Draw>)
    requires Owned(h, log, x, p, drawn)
    ensures Owned(h, log, x, p, drawn || Draws(draw, x))
  {
  }

  lemma HandledOwned(b: Backend, i: PollInput, setup: Setup, log: seq<SealUse>, x: seq<byte>, p: Peer, drawn: bool)
    requires Handles(b, i) && Owned(Screening(b, i), log, x, p, drawn)
    requires Fair(DrawOf(PollStep(i)), x, p, drawn)
    ensures Owned(Poll(b, i, setup).backend.host, log + LastSeals(b, i, setup), x, p, drawn || Draws(DrawOf(PollStep(i)), x))
  {
    PollPhases(b, i, setup);
    var draw, peer := DrawOf(PollStep(i)), i.received.peer;
    assert log + [] == log;
    ScreeningOwned(Screening(b, i), peer, i.received.datagram, log, x, p, drawn);
    if !Routes(b, i) {
      DrawnLater(Routing(b, i), log, x, p, drawn, draw);
    } else {
      RoutedOwned(b, i, setup, log, x, p, drawn);
      if RoutedOf(b, i, setup).result.Ok? {
        LastFlushOwned(b, i, setup, log, x, p, drawn || Draws(draw, x));
      }
    }
  }

  lemma LastFlushOwned(b: Backend, i: PollInput, setup: Setup, log: seq<SealUse>, x: seq<byte>, p: Peer, drawn: bool)
    requires Routes(b, i) && RoutedOf(b, i, setup).result.Ok?
    requires Owned(RoutedOf(b, i, setup).host, log, x, p, drawn)
    ensures Owned(Flush(BeforeLastFlush(b, i, setup), i.after).backend.host, log + LastSeals(b, i, setup), x, p, drawn)
  {
    AnsweringKeepsSessions(b, i, setup);
    StillOwned(RoutedOf(b, i, setup).host, BeforeLastFlush(b, i, setup).host, log, x, p, drawn);
    FlushOwned(BeforeLastFlush(b, i, setup), i.after, log, x, p, drawn);
  }

  lemma RoutedOwned(b: Backend, i: PollInput, setup: Setup, log: seq<SealUse>, x: seq<byte>, p: Peer, drawn: bool)
    requires Routes(b, i) && Owned(Routing(b, i), log, x, p, drawn) && Fair(DrawOf(PollStep(i)), x, p, drawn)
    ensures Owned(RoutedOf(b, i, setup).host, log, x, p, drawn || Draws(DrawOf(PollStep(i)), x))
  {
    var packet, draw := Screened(Screening(b, i), i.received.peer, i.received.datagram).value, DrawOf(PollStep(i));
    forall q
      ensures Moves(Routing(b, i), RoutedOf(b, i, setup).host, q, ShareOf(draw, q))
    {
      RouteMoves(Routing(b, i), i.received.peer, packet, setup, i.env, q);
    }
    MovesOwned(Routing(b, i), RoutedOf(b, i, setup).host, log, x, p, drawn, draw);
  }

  lemma StepOwned(b: Backend, step: Step, setup: Setup, log: seq<SealUse>, x: seq<byte>, p: Peer, drawn: bool)
    requires Owned(b.host, log, x, p, drawn)
    requires Fair(DrawOf(step), x, p, drawn)
    ensures Owned(Take(b, step, setup).host, log + StepSeals(b, step, setup), x, p, drawn || Draws(DrawOf(step), x))
  {
    assert log + [] == log;
    match step {
      case PollStep(i) => PollOwned(b, i, setup, log, x, p, drawn);
      case FlushStep(fates) => FlushOwned(b, fates, log, x, p, drawn);
      case MediaStep(packets, video, order) => StillOwned(b.host, Take(b, step, setup).host, log, x, p, drawn);
      case _ =>
        forall q
          ensures Moves(b.host, HostStep(b.host, step, setup), q, ShareOf(DrawOf(step), q))
        {
          HostStepMoves(b.host, step, setup, q);
        }
        MovesOwned(b.host, HostStep(b.host, step, setup), log, x, p, drawn, DrawOf(step));
    }
  }

  lemma {:induction false} SealLogOwned(init: Env, steps: seq<Step>, setup: Setup, i: nat, x: seq<byte>, p: Peer)
    requires i <= |steps| && DistinctDraws(steps)
    requires forall k :: 0 <= k < |steps| && Draws(DrawOf(steps[k]), x) ==> DrawOf(steps[k]).value.peer == p
    ensures Owned(At(init, steps, setup, i).host, SealLog(init, steps, setup, i), x, p, DrawnBefore(steps, x, i))
  {
    if i > 0 {
      SealLogOwned(init, steps, setup, i - 1, x, p);
      AtNext(init, steps, setup, i - 1);
      var drawn := DrawnBefore(steps, x, i - 1);
      assert Fair(DrawOf(steps[i - 1]), x, p, drawn);
      StepOwned(At(init, steps, setup, i - 1), steps[i - 1], setup, SealLog(init, steps, setup, i - 1), x, p, drawn);
      assert DrawnBefore(steps, x, i) == (drawn || Draws(DrawOf(steps[i - 1]), x));
    }
  }

  lemma AllNumbered(init: Env, steps: seq<Step>, setup: Setup, x: seq<byte>)
    requires DistinctDraws(steps)
    ensures Numbered(SealLog(init, steps, setup, |steps|), x)
  {
    var p := Peer(0, 0);
    if k :| 0 <= k < |steps| && Draws(DrawOf(steps[k]), x) {
      p := DrawOf(steps[k]).value.peer;
    }
    SealLogOwned(init, steps, setup, |steps|, x, p);
  }

  lemma {:induction false} NumberedAt(log: seq<SealUse>, x: seq<byte>, m: nat)
    requires Numbered(log, x) && m < |log| && IdOf(log[m].key) == x
    ensures log[m].counter == CounterOf(SealsUnder(log[..m], log[m].key))
    decreases |log|
  {
    var before := log[..|log| - 1];
    if m < |before| {
      NumberedAt(before, x, m);
      assert before[..m] == log[..m];
    }
  }

  /** The `i`-th seal of a run uses, under its key, the counter its place gives, for every run whose drawn
      session ids are distinct; re-seals after backpressure and failed seals included. */
  lemma SealCounters(init: Env, steps: seq<Step>, setup: Setup, i: nat)
    requires DistinctDraws(steps) && i < |SealLog(init, steps, setup, |steps|)|
    ensures var log := SealLog(init, steps, setup, |steps|);
            log[i].counter == CounterOf(SealsUnder(log[..i], log[i].key))
  {
    var log := SealLog(init, steps, setup, |steps|);
    AllNumbered(init, steps, setup, IdOf(log[i].key));
    NumberedAt(log, IdOf(log[i].key), i);
  }

  lemma {:induction false} PlacesGrow(log: seq<SealUse>, key: Key, m: nat, n: nat)
    requires m < n <= |log| && log[m].key == key
    ensures SealsUnder(log[..m], key) < SealsUnder(log[..n], key)
  {
    assert log[..n][..n - 1] == log[..n - 1];
    if m < n - 1 {
      PlacesGrow(log, key, m, n - 1);
    }
  }

  /** Where the `k`-th seal under a key is. */
  lemma {:induction false} PlaceOf(log: seq<SealUse>, key: Key, k: nat) returns (i: nat)
    requires k < SealsUnder(log, key)
    ensures i < |log| && log[i].key == key && SealsUnder(log[..i], key) == k
    decreases |log|
  {
    var before := log[..|log| - 1];
    if k < SealsUnder(before, key) {
      i := PlaceOf(before, key, k);
      assert before[..i] == log[..i];
    } else {
      i := |log| - 1;
    }
  }

  lemma CounterAt(c: nat)
    requires c < TWO_TO_THE_64
    ensures CounterOf(c) == if c == U64_MAX then 0 else c + 1
  {
  }

  lemma PlacesDiffer(a: nat, c: nat)
    requires a < c < TWO_TO_THE_64
    ensures Nonce(CounterOf(a)) != Nonce(CounterOf(c))
    ensures c < U64_MAX ==> CounterOf(a) < CounterOf(c)
  {
    CounterAt(a);
    CounterAt(c);
    if Nonce(CounterOf(a)) == Nonce(CounterOf(c)) {
      NonceInjective(CounterOf(a), CounterOf(c));
    }
  }

  /** Each seal of a log uses the counter its place under its key gives. */
  ghost predicate InPlace(log: seq<SealUse>) {
    forall i :: 0 <= i < |log| ==> log[i].counter == CounterOf(SealsUnder(log[..i], log[i].key))
  }

  lemma LogInPlace(init: Env, steps: seq<Step>, setup: Setup)
    requires DistinctDraws(steps)
    ensures InPlace(SealLog(init, steps, setup, |steps|))
  {
    var log := SealLog(init, steps, setup, |steps|);
    forall i | 0 <= i < |log|
      ensures log[i].counter == CounterOf(SealsUnder(log[..i], log[i].key))
    {
      SealCounters(init, steps, setup, i);
    }
  }

  lemma LaterDiffers(log: seq<SealUse>, m: nat, n: nat)
    requires InPlace(log) && m < n < |log| && log[m].key == log[n].key
    requires SealsUnder(log[..n], log[n].key) < TWO_TO_THE_64
    ensures Nonce(log[m].counter) != Nonce(log[n].counter)
    ensures SealsUnder(log[..n], log[n].key) < U64_MAX ==> log[m].counter < log[n].counter
  {
    PlacesGrow(log, log[m].key, m, n);
    PlacesDiffer(SealsUnder(log[..m], log[m].key), SealsUnder(log[..n], log[m].key));
  }

  /** Over every run whose drawn session ids are distinct: two seals under one key have different nonces,
      and the later the greater counter, until 2^64 and 2^64 - 1 seals under it have gone before. */
  lemma NoCounterReused(init: Env, steps: seq<Step>, setup: Setup, m: nat, n: nat)
    requires DistinctDraws(steps) && m < n < |SealLog(init, steps, setup, |steps|)|
    requires var log := SealLog(init, steps, setup, |steps|);
             log[m].key == log[n].key && SealsUnder(log[..n], log[n].key) < TWO_TO_THE_64
    ensures var log := SealLog(init, steps, setup, |steps|);
            && Nonce(log[m].counter) != Nonce(log[n].counter)
            && (SealsUnder(log[..n], log[n].key) < U64_MAX ==> log[m].counter < log[n].counter)
  {
    LogInPlace(init, steps, setup);
    LaterDiffers(SealLog(init, steps, setup, |steps|), m, n);
  }

  ghost predicate NoncesUnderDiffer(log: seq<SealUse>, key: Key) {
    forall m, n :: 0 <= m < n < |log| && log[m].key == key && log[n].key == key ==> Nonce(log[m].counter) != Nonce(log[n].counter)
  }

  lemma PlaceBelow(log: seq<SealUse>, key: Key, n: nat)
    requires n < |log| && log[n].key == key
    ensures SealsUnder(log[..n], key) < SealsUnder(log, key)
  {
    PlacesGrow(log, key, n, n + 1);
    SealsUpTo(log, key, n + 1);
  }

  lemma PairDiffers(log: seq<SealUse>, key: Key, m: nat, n: nat)
    requires InPlace(log) && SealsUnder(log, key) <= TWO_TO_THE_64
    requires m < n < |log| && log[m].key == key && log[n].key == key
    ensures Nonce(log[m].counter) != Nonce(log[n].counter)
  {
    PlaceBelow(log, key, n);
    LaterDiffers(log, m, n);
  }

  lemma FewDiffer(log: seq<SealUse>, key: Key)
    requires InPlace(log) && SealsUnder(log, key) <= TWO_TO_THE_64
    ensures NoncesUnderDiffer(log, key)
  {
    forall m: nat, n: nat | m < n < |log| && log[m].key == key && log[n].key == key
      ensures Nonce(log[m].counter) != Nonce(log[n].counter)
    {
      PairDiffers(log, key, m, n);
    }
  }

  lemma ManyRepeat(log: seq<SealUse>, key: Key)
    requires InPlace(log) && SealsUnder(log, key) > TWO_TO_THE_64
    ensures !NoncesUnderDiffer(log, key)
  {
    var m := PlaceOf(log, key, 0);
    var n := PlaceOf(log, key, TWO_TO_THE_64);
    if n <= m {
      PlaceOrder(log, key, n, m);
    }
    assert CounterOf(0) == CounterOf(TWO_TO_THE_64);
    assert m < n && log[m].counter == log[n].counter;
  }

  /** So, over every such run, the seals under a key have different nonces exactly when there are at most
      2^64 of them. */
  lemma NoncesDifferExactly(init: Env, steps: seq<Step>, setup: Setup, key: Key)
    requires DistinctDraws(steps)
    ensures var log := SealLog(init, steps, setup, |steps|);
            NoncesUnderDiffer(log, key) <==> SealsUnder(log, key) <= TWO_TO_THE_64
  {
    LogInPlace(init, steps, setup);
    if SealsUnder(SealLog(init, steps, setup, |steps|), key) <= TWO_TO_THE_64 {
      FewDiffer(SealLog(init, steps, setup, |steps|), key);
    } else {
      ManyRepeat(SealLog(init, steps, setup, |steps|), key);
    }
  }

  lemma {:induction false} SealsUpTo(log: seq<SealUse>, key: Key, n: nat)
    requires n <= |log|
    ensures SealsUnder(log[..n], key) <= SealsUnder(log, key)
    decreases |log| - n
  {
    if n < |log| {
      SealsUpTo(log, key, n + 1);
      assert log[..n + 1][..n] == log[..n];
    } else {
      assert log[..n] == log;
    }
  }

  lemma PlaceOrder(log: seq<SealUse>, key: Key, n: nat, m: nat)
    requires n <= m <= |log|
    ensures SealsUnder(log[..n], key) <= SealsUnder(log[..m], key)
  {
    SealsUpTo(log[..m], key, n);
    assert log[..m][..n] == log[..n];
  }

  // ---------------------------------------------------------------------------------------------
  // On the wire
  // ---------------------------------------------------------------------------------------------

  /** The keys and counters of the sealed datagrams among what was handed to the socket. */
  function WireUses(emissions: seq<Emission>): seq<SealUse> {
    if emissions == [] then []
    else WireUses(emissions[..|emissions| - 1]) + UsesOf(emissions[|emissions| - 1].wire)
  }

  function UsesOf(wire: Wire): seq<SealUse> {
    if wire.UnderSeal? && wire.sealed.ciphertext.Sealed? then [SealUse(wire.sealed.ciphertext.key, wire.sealed.counter)] else []
  }

  /** `sub` is `log` with some entries left out. */
  ghost predicate Thins(sub: seq<SealUse>, log: seq<SealUse>)
    decreases |log|
  {
    if log == [] then sub == []
    else
      var rest := log[..|log| - 1];
      Thins(sub, rest) || (sub != [] && sub[|sub| - 1] == log[|log| - 1] && Thins(sub[..|sub| - 1], rest))
  }

  lemma {:induction false} ThinsAppend(sub: seq<SealUse>, log: seq<SealUse>, sub': seq<SealUse>, log': seq<SealUse>)
    requires Thins(sub, log) && Thins(sub', log')
    ensures Thins(sub + sub', log + log')
    decreases |log'|
  {
    if log' == [] {
      assert sub + sub' == sub && log + log' == log;
    } else {
      var rest := log'[..|log'| - 1];
      assert (log + log')[..|log + log'| - 1] == log + rest;
      if Thins(sub', rest) {
        ThinsAppend(sub, log, sub', rest);
      } else {
        assert (sub + sub')[..|sub + sub'| - 1] == sub + sub'[..|sub'| - 1];
        ThinsAppend(sub, log, sub'[..|sub'| - 1], rest);
      }
    }
  }

  lemma {:induction false} ThinsAt(sub: seq<SealUse>, log: seq<SealUse>, m: nat) returns (m': nat)
    requires Thins(sub, log) && m < |sub|
    ensures m' < |log| && sub[m] == log[m']
    decreases |log|
  {
    var rest := log[..|log| - 1];
    if Thins(sub, rest) {
      m' := ThinsAt(sub, rest, m);
    } else if m == |sub| - 1 {
      m' := |log| - 1;
    } else {
      m' := ThinsAt(sub[..|sub| - 1], rest, m);
    }
  }

  lemma {:induction false} ThinsInOrder(sub: seq<SealUse>, log: seq<SealUse>, m: nat, n: nat) returns (m': nat, n': nat)
    requires Thins(sub, log) && m < n < |sub|
    ensures m' < n' < |log| && sub[m] == log[m'] && sub[n] == log[n']
    decreases |log|
  {
    var rest := log[..|log| - 1];
    if Thins(sub, rest) {
      m', n' := ThinsInOrder(sub, rest, m, n);
    } else if n == |sub| - 1 {
      m' := ThinsAt(sub[..|sub| - 1], rest, m);
      n' := |log| - 1;
    } else {
      m', n' := ThinsInOrder(sub[..|sub| - 1], rest, m, n);
    }
  }

  lemma {:induction false} WireUsesAppend(first: seq<Emission>, second: seq<Emission>)
    ensures WireUses(first + second) == WireUses(first) + WireUses(second)
  {
    if second == [] {
      assert first + second == first;
    } else {
      var prefix := second[..|second| - 1];
      WireUsesAppend(first, prefix);
      assert (first + second)[..|first + second| - 1] == first + prefix;
      Append(WireUses(first), WireUses(prefix), UsesOf(second[|second| - 1].wire));
    }
  }

  lemma FlushOneThins(b: Backend, fate: Fate)
    ensures Thins(WireUses(FlushOne(b, fate).done.emissions), FlushOne(b, fate).done.seals)
  {
    var popped := Popped(b.queues);
    if popped.Some? {
      var emissions, seals := EmissionsOf(b.host, popped.value, fate), SealsOf(b.host, popped.value.peer, fate);
      if emissions != [] {
        assert emissions[..0] == [];
        assert WireUses(emissions) == seals;
        if seals != [] {
          assert seals[..0] == [] && Thins([], []);
        }
      } else if seals != [] {
        assert seals[..0] == [] && Thins([], []);
      }
    }
  }

  lemma {:induction false} FlushThins(b: Backend, fates: seq<Fate>)
    ensures Thins(WireUses(Flush(b, fates).emissions), Flush(b, fates).seals)
    decreases |fates|
  {
    if fates != [] {
      var one := FlushOne(b, fates[0]).done;
      FlushStepwise(b, fates);
      FlushOneThins(b, fates[0]);
      if FlushOne(b, fates[0]).more {
        var g := Flush(one.backend, fates[1..]);
        FlushThins(one.backend, fates[1..]);
        WireUsesAppend(one.emissions, g.emissions);
        ThinsAppend(WireUses(one.emissions), one.seals, WireUses(g.emissions), g.seals);
      }
    }
  }

  lemma CompletedThins(b: Backend, peer: Peer, packet: Packet, routed: Routed, i: PollInput)
    ensures Thins(WireUses(Completed(b, peer, packet, routed, i).emissions), Completed(b, peer, packet, routed, i).seals)
  {
    if routed.result.Ok? {
      FlushThins(Answered(b.(host := routed.host), peer, routed.result.value, i.displays, i.env).0, i.after);
    }
  }

  lemma PollThins(b: Backend, i: PollInput, setup: Setup)
    ensures Thins(WireUses(Poll(b, i, setup).emissions), Poll(b, i, setup).seals)
  {
    FlushThins(b, i.before);
    if Routes(b, i) {
      var f, c := Flush(b, i.before), Completed(Arriving(b, i), i.received.peer, Screened(Screening(b, i), i.received.peer, i.received.datagram).value, RoutedOf(b, i, setup), i);
      PollRoutes(b, i, setup);
      CompletedThins(Arriving(b, i), i.received.peer, Screened(Screening(b, i), i.received.peer, i.received.datagram).value, RoutedOf(b, i, setup), i);
      WireUsesAppend(f.emissions, c.emissions);
      ThinsAppend(WireUses(f.emissions), f.seals, WireUses(c.emissions), c.seals);
    } else {
      assert Flush(b, i.before).emissions + [] == Flush(b, i.before).emissions;
      assert Flush(b, i.before).seals + [] == Flush(b, i.before).seals;
    }
  }

  lemma {:induction false} NoticesUnsealed(emissions: seq<Emission>)
    requires forall i :: 0 <= i < |emissions| ==> emissions[i].wire.InPlain?
    ensures WireUses(emissions) == []
  {
    if emissions != [] {
      NoticesUnsealed(emissions[..|emissions| - 1]);
    }
  }

  /** Everything handed to the socket in the first `i` steps, notices included. */
  function WireLog(init: Env, steps: seq<Step>, setup: Setup, i: nat): seq<Emission>
    requires i <= |steps|
  {
    if i == 0 then [] else WireLog(init, steps, setup, i - 1) + StepEmissions(At(init, steps, setup, i - 1), steps[i - 1], setup)
  }

  lemma StepThins(b: Backend, step: Step, setup: Setup)
    ensures Thins(WireUses(StepEmissions(b, step, setup)), StepSeals(b, step, setup))
  {
    match step {
      case PollStep(input) => PollThins(b, input, setup);
      case FlushStep(fates) => FlushThins(b, fates);
      case _ => NoticesUnsealed(NoticeEmissions(b.host, step, setup));
    }
  }

  lemma {:induction false} WireLogThins(init: Env, steps: seq<Step>, setup: Setup, i: nat)
    requires i <= |steps|
    ensures Thins(WireUses(WireLog(init, steps, setup, i)), SealLog(init, steps, setup, i))
  {
    if i > 0 {
      var b, step := At(init, steps, setup, i - 1), steps[i - 1];
      WireLogThins(init, steps, setup, i - 1);
      StepThins(b, step, setup);
      WireUsesAppend(WireLog(init, steps, setup, i - 1), StepEmissions(b, step, setup));
      ThinsAppend(WireUses(WireLog(init, steps, setup, i - 1)), SealLog(init, steps, setup, i - 1),
                  WireUses(StepEmissions(b, step, setup)), StepSeals(b, step, setup));
    }
  }

  /** So no two sealed datagrams ever handed to the socket share key and nonce, as long as at most 2^64
      seals were made under that key. */
  lemma NoNonceRepeatsOnTheWire(init: Env, steps: seq<Step>, setup: Setup, m: nat, n: nat)
    requires DistinctDraws(steps) && m < n < |WireUses(WireLog(init, steps, setup, |steps|))|
    requires SealsUnder(SealLog(init, steps, setup, |steps|), WireUses(WireLog(init, steps, setup, |steps|))[m].key) <= TWO_TO_THE_64
    ensures var uses := WireUses(WireLog(init, steps, setup, |steps|));
            uses[m].key == uses[n].key ==> Nonce(uses[m].counter) != Nonce(uses[n].counter)
  {
    WireLogThins(init, steps, setup, |steps|);
    var log, uses := SealLog(init, steps, setup, |steps|), WireUses(WireLog(init, steps, setup, |steps|));
    var m', n' := ThinsInOrder(uses, log, m, n);
    NoncesDifferExactly(init, steps, setup, uses[m].key);
    assert log[m'].key == uses[m].key && log[n'].key == uses[n].key;
  }
}
