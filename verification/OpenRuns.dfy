/**
 No sealed datagram is routed twice, over every run of the host, whichever peers it claims to come from
 and however often sessions are keyed again.
 */
module OpenRuns {
  import opened Bytes
  import opened Wrappers
  import opened Transport
  import opened Replay
  import opened SessionWire
  import opened SecureChannel
  import opened Sessions
  import opened Router
  import opened Runtime
  import opened HostRun
  import opened ExchangeRuns

  /** A counter accepted under a key. */
  datatype OpenUse = OpenUse(key: Key, counter: u64)

  /** What the arrival of a datagram makes a peer's guard record. */
  function OpensIn(h: Host, peer: Peer, d: Runtime.Datagram): seq<OpenUse> {
    if d.Secure? && IsSecure(h.sessions, peer)
       && OpenResult<Plaintext>(SecureOf(h, peer).codec, SecureOf(h, peer).ciphers.inbound, d.sealed).Ok?
    then [OpenUse(SecureOf(h, peer).ciphers.inbound, d.sealed.counter)] else []
  }

  function StepOpens(b: Backend, step: Step): seq<OpenUse> {
    if step.PollStep? && Handles(b, step.input)
    then OpensIn(Screening(b, step.input), step.input.received.peer, step.input.received.datagram) else []
  }

  /** Every counter accepted under a key in the first `i` steps. */
  function OpenLog(init: Env, steps: seq<Step>, setup: Setup, i: nat): seq<OpenUse>
    requires i <= |steps|
  {
    if i == 0 then [] else OpenLog(init, steps, setup, i - 1) + StepOpens(At(init, steps, setup, i - 1), steps[i - 1])
  }

  // ---------------------------------------------------------------------------------------------
  // The log of opens, for one session id
  // ---------------------------------------------------------------------------------------------

  ghost predicate Unread(log: seq<OpenUse>, x: seq<byte>) {
    forall i :: 0 <= i < |log| ==> IdOf(log[i].key) != x
  }

  ghost predicate AllUnder(log: seq<OpenUse>, x: seq<byte>, key: Key) {
    forall i :: 0 <= i < |log| && IdOf(log[i].key) == x ==> log[i].key == key
  }

  ghost predicate NeverRepeats(log: seq<OpenUse>, x: seq<byte>) {
    forall i, j :: 0 <= i < j < |log| && IdOf(log[i].key) == x && IdOf(log[j].key) == x ==> log[i].counter != log[j].counter
  }

  ghost function Counters(log: seq<OpenUse>, x: seq<byte>): set<int> {
    set i | 0 <= i < |log| && IdOf(log[i].key) == x :: log[i].counter
  }

  predicate Keyed(h: Host, q: Peer) {
    IsSecure(h.sessions, q) ==> IdOf(SecureOf(h, q).ciphers.inbound) == SecureOf(h, q).sessionId
  }

  /** The owner has an offer nothing was opened under, or the one session of the id, whose guard
      remembers every counter accepted under its key. */
  ghost predicate ReadsAlone(h: Host, p: Peer, log: seq<OpenUse>, x: seq<byte>) {
    && (Offered(h, p, x) ==> !Held(h, p, x) && Unread(log, x))
    && (Held(h, p, x) ==> AllUnder(log, x, SecureOf(h, p).ciphers.inbound)
                          && Represents(SecureOf(h, p).codec.guard, Counters(log, x)))
  }

  ghost predicate Remembered(h: Host, log: seq<OpenUse>, x: seq<byte>, p: Peer, drawn: bool) {
    && NeverRepeats(log, x)
    && ReadsAlone(h, p, log, x)
    && (!drawn ==> Unread(log, x) && Foreign(h, p, x))
    && forall q :: Keyed(h, q) && (q != p ==> Foreign(h, q, x))
  }

  // ---------------------------------------------------------------------------------------------
  // Steps
  // ---------------------------------------------------------------------------------------------

  lemma NoCounters(log: seq<OpenUse>, x: seq<byte>)
    requires Unread(log, x)
    ensures Counters(log, x) == {}
  {
  }

  lemma OwnerMoves(h: Host, h': Host, log: seq<OpenUse>, x: seq<byte>, p: Peer, draw: Option<Bytes16>)
    requires ReadsAlone(h, p, log, x) && Moves(h, h', p, draw)
    requires draw == Some(x) ==> Unread(log, x) && Foreign(h, p, x)
    ensures ReadsAlone(h', p, log, x)
  {
    if Unread(log, x) {
      NoCounters(log, x);
    }
  }

  lemma MovesRemembered(h: Host, h': Host, log: seq<OpenUse>, x: seq<byte>, p: Peer, drawn: bool, draw: Option<Draw>)
    requires Remembered(h, log, x, p, drawn) && Fair(draw, x, p, drawn)
    requires forall q :: Moves(h, h', q, ShareOf(draw, q))
    ensures Remembered(h', log, x, p, drawn || Draws(draw, x))
  {
    assert Moves(h, h', p, ShareOf(draw, p));
    OwnerMoves(h, h', log, x, p, ShareOf(draw, p));
    if !drawn && !Draws(draw, x) {
      OtherMoves(h, h', x, p, ShareOf(draw, p));
    }
    forall q
      ensures Keyed(h', q) && (q != p ==> Foreign(h', q, x))
    {
      assert Moves(h, h', q, ShareOf(draw, q)) && Keyed(h, q);
      if q != p {
        OtherMoves(h, h', x, q, ShareOf(draw, q));
      }
    }
  }

  lemma StillRemembered(h: Host, h': Host, log: seq<OpenUse>, x: seq<byte>, p: Peer, drawn: bool)
    requires Remembered(h, log, x, p, drawn)
    requires forall q :: Still(h, h', q)
    ensures Remembered(h', log, x, p, drawn)
  {
    forall q
      ensures Moves(h, h', q, ShareOf(None, q))
    {
      assert Still(h, h', q);
    }
    MovesRemembered(h, h', log, x, p, drawn, None);
  }

  lemma DrawnLater(h: Host, log: seq<OpenUse>, x: seq<byte>, p: Peer, drawn: bool, draw: Option<Draw>)
    requires Remembered(h, log, x, p, drawn)
    ensures Remembered(h, log, x, p, drawn || Draws(draw, x))
  {
  }

  /** Only the guard of one session changes, if that. */
  predicate SameButCounter(h: Host, h': Host, q: Peer) {
    && (q in h.sessions <==> q in h'.sessions)
    && (q in h.sessions ==>
          && h.sessions[q].pendingExchange == h'.sessions[q].pendingExchange
          && (IsSecure(h.sessions, q) <==> IsSecure(h'.sessions, q))
          && (IsSecure(h.sessions, q) ==>
                && SecureOf(h, q).sessionId == SecureOf(h', q).sessionId
                && SecureOf(h, q).ciphers == SecureOf(h', q).ciphers
                && SecureOf(h, q).codec.guard == SecureOf(h', q).codec.guard))
  }

  lemma SameButCounterRemembered(h: Host, h': Host, log: seq<OpenUse>, x: seq<byte>, p: Peer, drawn: bool)
    requires Remembered(h, log, x, p, drawn)
    requires forall q :: SameButCounter(h, h', q)
    ensures Remembered(h', log, x, p, drawn)
  {
    assert SameButCounter(h, h', p);
    forall q
      ensures Keyed(h', q) && (q != p ==> Foreign(h', q, x))
    {
      assert SameButCounter(h, h', q) && Keyed(h, q) && (q != p ==> Foreign(h, q, x));
    }
  }

  lemma FlushOneSame(b: Backend, fate: Fate, q: Peer)
    ensures SameButCounter(b.host, FlushOne(b, fate).done.backend.host, q)
  {
  }

  lemma {:induction false} FlushRemembered(b: Backend, fates: seq<Fate>, log: seq<OpenUse>, x: seq<byte>, p: Peer, drawn: bool)
    requires Remembered(b.host, log, x, p, drawn)
    ensures Remembered(Flush(b, fates).backend.host, log, x, p, drawn)
    decreases |fates|
  {
    if fates != [] {
      var one := FlushOne(b, fates[0]);
      forall q
        ensures SameButCounter(b.host, one.done.backend.host, q)
      {
        FlushOneSame(b, fates[0], q);
      }
      SameButCounterRemembered(b.host, one.done.backend.host, log, x, p, drawn);
      if one.more {
        FlushRemembered(one.done.backend, fates[1..], log, x, p, drawn);
      }
    }
  }

  /** One more counter accepted. */
  lemma CountersNext(log: seq<OpenUse>, use: OpenUse, x: seq<byte>)
    ensures Counters(log + [use], x) == Counters(log, x) + if IdOf(use.key) == x then {use.counter} else {}
  {
    var next := log + [use];
    assert forall i :: 0 <= i < |log| ==> next[i] == log[i];
    assert next[|log|] == use;
  }

  lemma NeverRepeatsNext(log: seq<OpenUse>, use: OpenUse, x: seq<byte>)
    requires NeverRepeats(log, x) && (IdOf(use.key) == x ==> use.counter !in Counters(log, x))
    ensures NeverRepeats(log + [use], x)
  {
    forall i | 0 <= i < |log| && IdOf(log[i].key) == x
      ensures log[i].counter in Counters(log, x)
    {
    }
  }

  /** Accepting a sealed datagram: its counter was not accepted before under that key. */
  lemma AcceptRemembered(h: Host, peer: Peer, d: Runtime.Datagram, log: seq<OpenUse>, x: seq<byte>, p: Peer, drawn: bool)
    requires Remembered(h, log, x, p, drawn) && OpensIn(h, peer, d) != []
    ensures Remembered(AfterScreening(h, peer, d), log + OpensIn(h, peer, d), x, p, drawn)
  {
    var h', use, secure := AfterScreening(h, peer, d), OpensIn(h, peer, d)[0], SecureOf(h, peer);
    assert Keyed(h, peer) && (peer != p ==> Foreign(h, peer, x));
    CountersNext(log, use, x);
    if IdOf(use.key) == x {
      GuardStepRefines(secure.codec.guard, Counters(log, x), d.sealed.counter);
    }
    NeverRepeatsNext(log, use, x);
    forall q
      ensures Keyed(h', q) && (q != p ==> Foreign(h', q, x))
    {
      assert Keyed(h, q) && (q != p ==> Foreign(h, q, x));
    }
  }

  lemma ScreeningRemembered(h: Host, peer: Peer, d: Runtime.Datagram, log: seq<OpenUse>, x: seq<byte>, p: Peer, drawn: bool)
    requires Remembered(h, log, x, p, drawn)
    ensures Remembered(AfterScreening(h, peer, d), log + OpensIn(h, peer, d), x, p, drawn)
  {
    if OpensIn(h, peer, d) != [] {
      AcceptRemembered(h, peer, d, log, x, p, drawn);
    } else {
      assert log + [] == log;
      var h' := AfterScreening(h, peer, d);
      forall q
        ensures SameButCounter(h, h', q)
      {
      }
      SameButCounterRemembered(h, h', log, x, p, drawn);
    }
  }

  lemma RoutedRemembered(b: Backend, i: PollInput, setup: Setup, log: seq<OpenUse>, x: seq<byte>, p: Peer, drawn: bool)
    requires Routes(b, i) && Remembered(Routing(b, i), log, x, p, drawn) && Fair(DrawOf(PollStep(i)), x, p, drawn)
    ensures Remembered(RoutedOf(b, i, setup).host, log, x, p, drawn || Draws(DrawOf(PollStep(i)), x))
  {
    var packet, draw := Screened(Screening(b, i), i.received.peer, i.received.datagram).value, DrawOf(PollStep(i));
    forall q
      ensures Moves(Routing(b, i), RoutedOf(b, i, setup).host, q, ShareOf(draw, q))
    {
      RouteMoves(Routing(b, i), i.received.peer, packet, setup, i.env, q);
    }
    MovesRemembered(Routing(b, i), RoutedOf(b, i, setup).host, log, x, p, drawn, draw);
  }

  lemma LastFlushRemembered(b: Backend, i: PollInput, setup: Setup, log: seq<OpenUse>, x: seq<byte>, p: Peer, drawn: bool)
    requires Routes(b, i) && RoutedOf(b, i, setup).result.Ok? && Remembered(RoutedOf(b, i, setup).host, log, x, p, drawn)
    ensures Remembered(Flush(BeforeLastFlush(b, i, setup), i.after).backend.host, log, x, p, drawn)
  {
    AnsweringKeepsSessions(b, i, setup);
    StillRemembered(RoutedOf(b, i, setup).host, BeforeLastFlush(b, i, setup).host, log, x, p, drawn);
    FlushRemembered(BeforeLastFlush(b, i, setup), i.after, log, x, p, drawn);
  }

  lemma PollRemembered(b: Backend, i: PollInput, setup: Setup, log: seq<OpenUse>, x: seq<byte>, p: Peer, drawn: bool)
    requires Remembered(b.host, log, x, p, drawn) && Fair(DrawOf(PollStep(i)), x, p, drawn)
    ensures Remembered(Poll(b, i, setup).backend.host, log + StepOpens(b, PollStep(i)), x, p, drawn || Draws(DrawOf(PollStep(i)), x))
  {
    PollPhases(b, i, setup);
    FlushRemembered(b, i.before, log, x, p, drawn);
    var draw, log' := DrawOf(PollStep(i)), log + StepOpens(b, PollStep(i));
    if !Handles(b, i) {
      assert log + [] == log;
      DrawnLater(Screening(b, i), log, x, p, drawn, draw);
    } else {
      ScreeningRemembered(Screening(b, i), i.received.peer, i.received.datagram, log, x, p, drawn);
      if !Routes(b, i) {
        DrawnLater(Routing(b, i), log', x, p, drawn, draw);
      } else {
        RoutedRemembered(b, i, setup, log', x, p, drawn);
        if RoutedOf(b, i, setup).result.Ok? {
          LastFlushRemembered(b, i, setup, log', x, p, drawn || Draws(draw, x));
        }
      }
    }
  }

  lemma StepRemembered(b: Backend, step: Step, setup: Setup, log: seq<OpenUse>, x: seq<byte>, p: Peer, drawn: bool)
    requires Remembered(b.host, log, x, p, drawn) && Fair(DrawOf(step), x, p, drawn)
    ensures Remembered(Take(b, step, setup).host, log + StepOpens(b, step), x, p, drawn || Draws(DrawOf(step), x))
  {
    assert log + [] == log;
    match step {
      case PollStep(i) => PollRemembered(b, i, setup, log, x, p, drawn);
      case FlushStep(fates) => FlushRemembered(b, fates, log, x, p, drawn);
      case MediaStep(packets, video, order) => StillRemembered(b.host, Take(b, step, setup).host, log, x, p, drawn);
      case _ =>
        forall q
          ensures Moves(b.host, HostStep(b.host, step, setup), q, ShareOf(DrawOf(step), q))
        {
          HostStepMoves(b.host, step, setup, q);
        }
        MovesRemembered(b.host, HostStep(b.host, step, setup), log, x, p, drawn, DrawOf(step));
    }
  }

  // ---------------------------------------------------------------------------------------------
  // Runs
  // ---------------------------------------------------------------------------------------------

  lemma {:induction false} OpenLogRemembered(init: Env, steps: seq<Step>, setup: Setup, i: nat, x: seq<byte>, p: Peer)
    requires i <= |steps| && DistinctDraws(steps)
    requires forall k :: 0 <= k < |steps| && Draws(DrawOf(steps[k]), x) ==> DrawOf(steps[k]).value.peer == p
    ensures Remembered(At(init, steps, setup, i).host, OpenLog(init, steps, setup, i), x, p, DrawnBefore(steps, x, i))
  {
    if i > 0 {
      OpenLogRemembered(init, steps, setup, i - 1, x, p);
      AtNext(init, steps, setup, i - 1);
      var drawn := DrawnBefore(steps, x, i - 1);
      assert Fair(DrawOf(steps[i - 1]), x, p, drawn);
      StepRemembered(At(init, steps, setup, i - 1), steps[i - 1], setup, OpenLog(init, steps, setup, i - 1), x, p, drawn);
      assert DrawnBefore(steps, x, i) == (drawn || Draws(DrawOf(steps[i - 1]), x));
    }
  }

  /** Over every run whose drawn session ids are distinct, no counter is accepted twice under one key. */
  lemma NoCounterAcceptedTwice(init: Env, steps: seq<Step>, setup: Setup, m: nat, n: nat)
    requires DistinctDraws(steps) && m < n < |OpenLog(init, steps, setup, |steps|)|
    ensures var log := OpenLog(init, steps, setup, |steps|);
            log[m].key == log[n].key ==> log[m].counter != log[n].counter
  {
    var log := OpenLog(init, steps, setup, |steps|);
    var x, p := IdOf(log[m].key), Peer(0, 0);
    if k :| 0 <= k < |steps| && Draws(DrawOf(steps[k]), x) {
      p := DrawOf(steps[k]).value.peer;
    }
    OpenLogRemembered(init, steps, setup, |steps|, x, p);
  }

  lemma {:induction false} LogGrows(init: Env, steps: seq<Step>, setup: Setup, i: nat, j: nat)
    requires i <= j <= |steps|
    ensures OpenLog(init, steps, setup, i) <= OpenLog(init, steps, setup, j)
  {
    if i < j {
      LogGrows(init, steps, setup, i, j - 1);
    }
  }

  /** The step routes a packet it opened. */
  predicate RoutesSealed(b: Backend, step: Step) {
    step.PollStep? && Routes(b, step.input) && step.input.received.datagram.Secure?
  }

  lemma RoutedIsLogged(b: Backend, step: Step)
    requires RoutesSealed(b, step)
    ensures var sealed := step.input.received.datagram.sealed;
            && sealed.ciphertext.Sealed? && sealed.ciphertext.nonce == Nonce(sealed.counter)
            && StepOpens(b, step) == [OpenUse(sealed.ciphertext.key, sealed.counter)]
  {
  }

  /** Over every run: no sealed text is routed twice, from whatever peers and with whatever counters it
      is presented. */
  lemma NeverRoutedTwice(init: Env, steps: seq<Step>, setup: Setup, i: nat, j: nat)
    requires DistinctDraws(steps) && i < j < |steps|
    requires RoutesSealed(At(init, steps, setup, i), steps[i]) && RoutesSealed(At(init, steps, setup, j), steps[j])
    ensures steps[i].input.received.datagram.sealed.ciphertext != steps[j].input.received.datagram.sealed.ciphertext
  {
    var a, c := steps[i].input.received.datagram.sealed, steps[j].input.received.datagram.sealed;
    RoutedIsLogged(At(init, steps, setup, i), steps[i]);
    RoutedIsLogged(At(init, steps, setup, j), steps[j]);
    var m, n, log := |OpenLog(init, steps, setup, i)|, |OpenLog(init, steps, setup, j)|, OpenLog(init, steps, setup, |steps|);
    LogGrows(init, steps, setup, i + 1, j);
    LogGrows(init, steps, setup, i + 1, |steps|);
    LogGrows(init, steps, setup, j + 1, |steps|);
    assert OpenLog(init, steps, setup, i + 1)[m] == OpenUse(a.ciphertext.key, a.counter);
    assert OpenLog(init, steps, setup, j + 1)[n] == OpenUse(c.ciphertext.key, c.counter);
    NoCounterAcceptedTwice(init, steps, setup, m, n);
    if a.ciphertext == c.ciphertext {
      NonceInjective(a.counter, c.counter);
    }
  }
}
