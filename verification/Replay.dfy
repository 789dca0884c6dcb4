/**
 The sliding replay window, in its three implementations: the Rust `ReplayGuard`, and the windows
 kept by the Kotlin and the Swift secure-datagram codecs.

 The reference is the unbounded specification `Fresh`: a counter is acceptable when it was never
 accepted before and it is greater than the highest accepted counter minus the window.
 */
module Replay {
  import opened Bytes
  import opened Wrappers

  const TWO_TO_THE_63: int := 0x8000_0000_0000_0000

  /** The state all three implementations keep: the highest accepted counter and the recent ones. */
  datatype Window = Window(highest: Option<int>, size: int, seen: set<int>)

  function Empty(size: int): Window {
    Window(None, size, {})
  }

  // ---------------------------------------------------------------------------------------------
  // The unbounded specification
  // ---------------------------------------------------------------------------------------------

  /** `history` is every counter accepted so far. */
  ghost predicate Fresh(history: set<int>, size: int, c: int) {
    c !in history && forall h :: h in history ==> h < c + size
  }

  /** The counters the specification accepts from a stream of offers, in order. */
  ghost function SpecAccepted(size: int, offers: seq<int>): seq<int> {
    if offers == [] then []
    else
      var before := SpecAccepted(size, offers[..|offers| - 1]);
      var c := offers[|offers| - 1];
      if Fresh(Elements(before), size, c) then before + [c] else before
  }

  ghost function Elements(s: seq<int>): set<int> {
    set x | x in s
  }

  ghost predicate NoDuplicates(s: seq<int>) {
    forall i, j :: 0 <= i < j < |s| ==> s[i] != s[j]
  }

  /** `w` is what a window remembers of `history`. */
  ghost predicate Represents(w: Window, history: set<int>) {
    && w.size >= 1
    && (w.highest.None? <==> history == {})
    && (w.highest.Some? ==> w.highest.value in history && forall h :: h in history ==> h <= w.highest.value)
    && w.seen == set h | h in history && w.highest.Some? && w.highest.value < h + w.size
  }

  /** A window holds at most `size` counters. */
  lemma WindowIsBounded(w: Window, history: set<int>)
    requires Represents(w, history)
    ensures |w.seen| <= w.size
  {
    if w.highest.Some? {
      IntervalCardinality(w.seen, w.highest.value - w.size + 1, w.highest.value + 1);
    }
  }

  lemma {:induction false} IntervalCardinality(s: set<int>, lo: int, hi: int)
    requires lo <= hi && forall x :: x in s ==> lo <= x < hi
    ensures |s| <= hi - lo
    decreases hi - lo
  {
    if lo < hi {
      IntervalCardinality(s - {lo}, lo + 1, hi);
    } else {
      assert forall x :: x !in s;
      assert s == {};
    }
  }

  // ---------------------------------------------------------------------------------------------
  // Rust: decrypt, then `ReplayGuard::accept` with saturating arithmetic
  // ---------------------------------------------------------------------------------------------

  function SaturatingAdd(a: u64, b: u64): u64 {
    if a + b > U64_MAX then U64_MAX else a + b
  }

  function SaturatingSub(a: u64, b: u64): u64 {
    if a < b then 0 else a - b
  }

  ghost predicate InU64(w: Window) {
    && 1 <= w.size <= U64_MAX
    && (w.highest.Some? ==> 0 <= w.highest.value <= U64_MAX)
    && forall x :: x in w.seen ==> 0 <= x <= U64_MAX
  }

  predicate GuardAccepts(w: Window, c: u64)
    requires InU64(w)
  {
    c !in w.seen && (w.highest.Some? ==> w.highest.value < SaturatingAdd(c, w.size))
  }

  function GuardRecord(w: Window, c: u64): (r: Window)
    requires InU64(w)
    ensures InU64(r)
  {
    var high := if w.highest.Some? then Max(w.highest.value, c) else c;
    Window(Some(high), w.size, set x | x in w.seen + {c} && SaturatingSub(high, w.size - 1) <= x)
  }

  function GuardStep(w: Window, c: u64): Window
    requires InU64(w)
  {
    if GuardAccepts(w, c) then GuardRecord(w, c) else w
  }

  class ReplayGuard {
    var highestCounter: Option<int>
    const window: u64
    var seen: set<int>

    ghost predicate Valid()
      reads this
    {
      InU64(State())
    }

    ghost function State(): Window
      reads this
    {
      Window(highestCounter, window, seen)
    }

    constructor (window: u64)
      ensures Valid() && State() == Empty(Max(window, 1))
    {
      this.highestCounter := None;
      this.window := Max(window, 1);
      this.seen := {};
    }

    method Accept(counter: u64) returns (ok: bool)
      requires Valid()
      modifies this
      ensures Valid()
      ensures ok == GuardAccepts(old(State()), counter)
      ensures State() == GuardStep(old(State()), counter)
    {
      if counter in seen {
        return false;
      }
      if highestCounter.Some? && SaturatingAdd(counter, window) <= highestCounter.value {
        return false;
      }
      var high := if highestCounter.Some? then Max(highestCounter.value, counter) else counter;
      highestCounter := Some(high);
      seen := seen + {counter};
      var oldestAllowed := SaturatingSub(high, window - 1);
      seen := set x | x in seen && oldestAllowed <= x;
      return true;
    }
  }

  /** One offer: the guard keeps representing the history, and it accepts what the specification
      accepts except when the highest counter is `u64::MAX`, after which it accepts nothing. */
  lemma GuardStepRefines(w: Window, history: set<int>, c: u64)
    requires InU64(w) && Represents(w, history)
    ensures GuardAccepts(w, c) <==> Fresh(history, w.size, c) && w.highest != Some(U64_MAX)
    ensures GuardAccepts(w, c) ==> Represents(GuardRecord(w, c), history + {c})
    ensures InU64(GuardStep(w, c))
  {
    if w.highest.Some? {
      assert w.highest.value in history;
      assert c in history && w.highest.value < c + w.size ==> c in w.seen;
    }
    if GuardAccepts(w, c) {
      var w' := GuardRecord(w, c);
      assert c in w'.seen;
      forall h | h in history + {c} && w'.highest.value < h + w.size
        ensures h in w'.seen
      {
        assert h == c || h in w.seen;
      }
    }
  }

  ghost function GuardAfter(size: u64, offers: seq<u64>): (w: Window)
    requires size >= 1
    ensures InU64(w) && w.size == size
  {
    if offers == [] then Empty(size)
    else GuardStep(GuardAfter(size, offers[..|offers| - 1]), offers[|offers| - 1])
  }

  /** The counters the guard accepts from a stream of offers, in order. */
  ghost function GuardAccepted(size: u64, offers: seq<u64>): seq<int>
    requires size >= 1
  {
    if offers == [] then []
    else
      var prefix := offers[..|offers| - 1];
      var c := offers[|offers| - 1];
      GuardAccepted(size, prefix) + if GuardAccepts(GuardAfter(size, prefix), c) then [c] else []
  }

  /** For every stream of 64-bit counters, saturation included: no counter is accepted twice, and
      the bounded state is the specification's history cut to the window. */
  lemma {:induction false} AtMostOnce(size: u64, offers: seq<u64>)
    requires size >= 1
    ensures NoDuplicates(GuardAccepted(size, offers))
    ensures Represents(GuardAfter(size, offers), Elements(GuardAccepted(size, offers)))
    ensures |GuardAfter(size, offers).seen| <= size
  {
    if offers != [] {
      var prefix, c := offers[..|offers| - 1], offers[|offers| - 1];
      AtMostOnce(size, prefix);
      var accepted := GuardAccepted(size, prefix);
      GuardStepRefines(GuardAfter(size, prefix), Elements(accepted), c);
      ExtendAccepted(accepted, c);
    }
    WindowIsBounded(GuardAfter(size, offers), Elements(GuardAccepted(size, offers)));
  }

  lemma ExtendAccepted(accepted: seq<int>, c: int)
    ensures Elements(accepted + [c]) == Elements(accepted) + {c}
    ensures NoDuplicates(accepted) && c !in Elements(accepted) ==> NoDuplicates(accepted + [c])
    ensures accepted + [] == accepted
  {
  }

  /** The guard's decision on the next offer is the specification's, unless `u64::MAX` has been
      accepted and the offer is a fresh counter inside the final window. */
  lemma GuardDecidesAsSpecified(size: u64, offers: seq<u64>, c: u64)
    requires size >= 1
    ensures var history := Elements(GuardAccepted(size, offers));
            (GuardAccepts(GuardAfter(size, offers), c) <==> Fresh(history, size, c)) <==>
            !(U64_MAX in history && c !in history && c + size > U64_MAX)
  {
    AtMostOnce(size, offers);
    GuardStepRefines(GuardAfter(size, offers), Elements(GuardAccepted(size, offers)), c);
  }

  lemma FirstAccepted(size: u64, c: u64)
    requires size >= 1 && c > 0
    ensures GuardAccepted(size, [c]) == [c]
  {
    assert [c][..0] == [];
    assert GuardAccepts(Empty(size), c);
  }

  lemma StuckAfter(size: u64, offers: seq<u64>)
    requires size >= 2 && GuardAccepted(size, offers) == [U64_MAX]
    ensures Fresh(Elements(GuardAccepted(size, offers)), size, U64_MAX - 1)
    ensures !GuardAccepts(GuardAfter(size, offers), U64_MAX - 1)
  {
    GuardDecidesAsSpecified(size, offers, U64_MAX - 1);
    assert [U64_MAX][0] in Elements([U64_MAX]);
  }

  /** At that input: once `u64::MAX` was accepted the guard refuses the counter below it, which is fresh. */
  lemma StuckAtMaximum(size: u64)
    requires size >= 2
    ensures Fresh(Elements(GuardAccepted(size, [U64_MAX])), size, U64_MAX - 1)
    ensures !GuardAccepts(GuardAfter(size, [U64_MAX]), U64_MAX - 1)
  {
    FirstAccepted(size, U64_MAX);
    StuckAfter(size, [U64_MAX]);
  }

  /** Until `u64::MAX` is offered the guard is the unbounded specification. */
  lemma {:induction false} GuardRefinesSpecification(size: u64, offers: seq<u64>)
    requires size >= 1
    requires U64_MAX !in offers
    ensures GuardAccepted(size, offers) == SpecAccepted(size, offers)
  {
    if offers != [] {
      var prefix, c := offers[..|offers| - 1], offers[|offers| - 1];
      GuardRefinesSpecification(size, prefix);
      AcceptedWereOffered(size, prefix);
      GuardDecidesAsSpecified(size, prefix, c);
    }
  }

  lemma {:induction false} AcceptedWereOffered(size: u64, offers: seq<u64>)
    requires size >= 1
    ensures forall x :: x in GuardAccepted(size, offers) ==> x in offers
  {
    if offers != [] {
      AcceptedWereOffered(size, offers[..|offers| - 1]);
    }
  }

  // ---------------------------------------------------------------------------------------------
  // One received datagram: a counter, and whether its authentication tag verifies
  // ---------------------------------------------------------------------------------------------

  datatype Datagram = Datagram(counter: u64, authentic: bool)

  /** Rust decrypts first and asks the guard only about authentic datagrams. */
  ghost predicate RustDelivers(w: Window, d: Datagram)
    requires InU64(w)
  {
    d.authentic && GuardAccepts(w, d.counter)
  }

  ghost function RustOpen(w: Window, d: Datagram): Window
    requires InU64(w)
  {
    if d.authentic then GuardStep(w, d.counter) else w
  }

  // ---------------------------------------------------------------------------------------------
  // Kotlin: check, decrypt, then record, in wrapping signed 64-bit arithmetic
  // ---------------------------------------------------------------------------------------------

  /** The value a 64-bit pattern has as a `Long`; also the result of `Long` arithmetic. */
  function AsLong(x: int): int {
    (x + TWO_TO_THE_63) % TWO_TO_THE_64 - TWO_TO_THE_63
  }

  ghost predicate KotlinFresh(w: Window, c: int) {
    && c > 0
    && c !in w.seen
    && (w.highest.None? || AsLong(c + w.size) > w.highest.value)
  }

  ghost function KotlinRecord(w: Window, c: int): Window {
    var high := if w.highest.Some? then Max(w.highest.value, c) else c;
    var oldest := AsLong(AsLong(high - w.size) + 1);
    Window(Some(high), w.size, set x | x in w.seen + {c} && oldest <= x)
  }

  ghost predicate KotlinDelivers(w: Window, d: Datagram) {
    KotlinFresh(w, AsLong(d.counter)) && d.authentic
  }

  ghost function KotlinOpen(w: Window, d: Datagram): Window {
    if KotlinDelivers(w, d) then KotlinRecord(w, AsLong(d.counter)) else w
  }

  class AndroidReplayWindow {
    const replayWindow: int
    var highestReceived: Option<int>
    var receivedCounters: set<int>

    ghost function State(): Window
      reads this
    {
      Window(highestReceived, replayWindow, receivedCounters)
    }

    constructor (replayWindow: int)
      ensures State() == Empty(replayWindow)
    {
      this.replayWindow := replayWindow;
      this.highestReceived := None;
      this.receivedCounters := {};
    }

    method EnsureFresh(counter: int) returns (ok: bool)
      ensures ok == KotlinFresh(State(), counter)
    {
      if counter <= 0 {
        return false;
      }
      if counter in receivedCounters {
        return false;
      }
      var highest := highestReceived;
      return highest == None || AsLong(counter + replayWindow) > highest.value;
    }

    method RecordCounter(counter: int)
      modifies this
      ensures State() == KotlinRecord(old(State()), counter)
    {
      highestReceived := Some(if highestReceived.Some? then Max(highestReceived.value, counter) else counter);
      receivedCounters := receivedCounters + {counter};
      var oldest := AsLong(AsLong(highestReceived.value - replayWindow) + 1);
      receivedCounters := set x | x in receivedCounters && oldest <= x;
    }

    method Open(d: Datagram) returns (delivered: bool)
      modifies this
      ensures delivered == KotlinDelivers(old(State()), d)
      ensures State() == KotlinOpen(old(State()), d)
    {
      var counter := AsLong(d.counter);
      var isFresh := EnsureFresh(counter);
      if !isFresh || !d.authentic {
        return false;
      }
      RecordCounter(counter);
      return true;
    }
  }

  // ---------------------------------------------------------------------------------------------
  // Swift: check, decrypt, then record, in guarded unsigned 64-bit arithmetic
  // ---------------------------------------------------------------------------------------------

  ghost predicate SwiftFresh(w: Window, c: u64) {
    && c > 0
    && c !in w.seen
    && !(w.highest.Some? && c <= w.highest.value && w.highest.value - c >= w.size)
  }

  ghost function SwiftRecord(w: Window, c: u64): Window {
    var high := if w.highest.Some? then Max(w.highest.value, c) else c;
    var oldest := if high >= w.size - 1 then high - (w.size - 1) else 0;
    Window(Some(high), w.size, set x | x in w.seen + {c} && oldest <= x)
  }

  ghost predicate SwiftDelivers(w: Window, d: Datagram) {
    SwiftFresh(w, d.counter) && d.authentic
  }

  ghost function SwiftOpen(w: Window, d: Datagram): Window {
    if SwiftDelivers(w, d) then SwiftRecord(w, d.counter) else w
  }

  class MacReplayWindow {
    const replayWindow: u64
    var highestReceived: Option<int>
    var receivedCounters: set<int>

    ghost function State(): Window
      reads this
    {
      Window(highestReceived, replayWindow, receivedCounters)
    }

    constructor (replayWindow: u64)
      ensures State() == Empty(Max(1, replayWindow))
    {
      this.replayWindow := Max(1, replayWindow);
      this.highestReceived := None;
      this.receivedCounters := {};
    }

    method EnsureFresh(counter: u64) returns (ok: bool)
      ensures ok == SwiftFresh(State(), counter)
    {
      if counter == 0 || counter in receivedCounters {
        return false;
      }
      if highestReceived.Some? {
        var highest := highestReceived.value;
        if counter <= highest && highest - counter >= replayWindow {
          return false;
        }
      }
      return true;
    }

    method Record(counter: u64)
      modifies this
      ensures State() == SwiftRecord(old(State()), counter)
    {
      highestReceived := Some(if highestReceived.Some? then Max(highestReceived.value, counter) else counter);
      receivedCounters := receivedCounters + {counter};
      var highest := highestReceived.value;
      var oldest := if highest >= replayWindow - 1 then highest - (replayWindow - 1) else 0;
      receivedCounters := set x | x in receivedCounters && x >= oldest;
    }

    method Open(d: Datagram) returns (delivered: bool)
      modifies this
      ensures delivered == SwiftDelivers(old(State()), d)
      ensures State() == SwiftOpen(old(State()), d)
    {
      var isFresh := EnsureFresh(d.counter);
      if !isFresh || !d.authentic {
        return false;
      }
      Record(d.counter);
      return true;
    }
  }

  // ---------------------------------------------------------------------------------------------
  // The three windows agree
  // ---------------------------------------------------------------------------------------------

  /** From a common state Rust and Swift part on a datagram exactly when it is authentic, unseen,
      and either is counter 0 inside the window or meets a guard saturated at `u64::MAX`. */
  lemma RustAndSwiftAgree(w: Window, history: set<int>, d: Datagram)
    requires InU64(w) && Represents(w, history)
    ensures RustOpen(w, d) == SwiftOpen(w, d) <==> (RustDelivers(w, d) <==> SwiftDelivers(w, d))
    ensures (RustDelivers(w, d) <==> SwiftDelivers(w, d)) <==>
            !(&& d.authentic && d.counter !in w.seen
              && (if d.counter == 0
                  then w.highest.None? || w.highest.value < w.size
                  else w.highest == Some(U64_MAX) && d.counter + w.size > U64_MAX))
  {
    assert GuardAccepts(w, d.counter) ==> d.counter in GuardRecord(w, d.counter).seen;
    assert SwiftDelivers(w, d) ==> d.counter in SwiftRecord(w, d.counter).seen;
  }

  /** From a common state that fits `Long`, Kotlin and Swift part exactly on the authentic datagrams with
      an unseen counter that is beyond `Long.MAX_VALUE`, or close enough below it that adding the window
      wraps around; Swift delivers those and Kotlin does not. */
  lemma KotlinAndSwiftAgree(w: Window, d: Datagram)
    requires 1 <= w.size < TWO_TO_THE_63
    requires w.highest.Some? ==> 1 <= w.highest.value < TWO_TO_THE_63
    requires forall x :: x in w.seen ==> 1 <= x
    ensures KotlinOpen(w, d) == SwiftOpen(w, d) <==> (KotlinDelivers(w, d) <==> SwiftDelivers(w, d))
    ensures (KotlinDelivers(w, d) <==> SwiftDelivers(w, d)) <==>
            !(&& d.authentic && d.counter > 0 && d.counter !in w.seen
              && (|| d.counter >= TWO_TO_THE_63
                  || (w.highest.Some? && d.counter + w.size >= TWO_TO_THE_63)))
  {
    var c := d.counter;
    AsLongWraps(c);
    AsLongWraps(c + w.size);
    if c < TWO_TO_THE_63 && d.authentic && SwiftFresh(w, c) {
      var high := if w.highest.Some? then Max(w.highest.value, c) else c;
      AsLongWraps(high - w.size);
      AsLongWraps(high - w.size + 1);
      assert KotlinRecord(w, c) == SwiftRecord(w, c);
    }
    assert SwiftDelivers(w, d) ==> SwiftRecord(w, c) != w by {
      assert SwiftDelivers(w, d) ==> c in SwiftRecord(w, c).seen;
    }
  }

  lemma AsLongWraps(x: int)
    ensures -TWO_TO_THE_63 <= x < TWO_TO_THE_63 ==> AsLong(x) == x
    ensures TWO_TO_THE_63 <= x < TWO_TO_THE_64 + TWO_TO_THE_63 ==> AsLong(x) == x - TWO_TO_THE_64
  {
  }

  ghost function RustAfter(size: int, run: seq<Datagram>): (w: Window)
    requires 1 <= size <= U64_MAX
    ensures InU64(w) && w.size == size
  {
    if run == [] then Empty(size) else RustOpen(RustAfter(size, run[..|run| - 1]), run[|run| - 1])
  }

  ghost function KotlinAfter(size: int, run: seq<Datagram>): Window {
    if run == [] then Empty(size) else KotlinOpen(KotlinAfter(size, run[..|run| - 1]), run[|run| - 1])
  }

  ghost function SwiftAfter(size: int, run: seq<Datagram>): Window {
    if run == [] then Empty(size) else SwiftOpen(SwiftAfter(size, run[..|run| - 1]), run[|run| - 1])
  }

  /** The counters every codec in the system sends, as long as none has sent 2^63 - window datagrams. */
  ghost predicate Ordinary(size: int, run: seq<Datagram>) {
    forall i :: 0 <= i < |run| ==> 1 <= run[i].counter < TWO_TO_THE_63 - size
  }

  /** On every run of ordinary counters, with any authentication verdicts, the three windows are in
      the same state and decide the next datagram alike. */
  lemma {:induction false} ThreeWindowsAgree(size: int, run: seq<Datagram>, next: Datagram)
    requires 1 <= size < TWO_TO_THE_63
    requires Ordinary(size, run + [next])
    ensures RustAfter(size, run) == KotlinAfter(size, run) == SwiftAfter(size, run)
    ensures RustDelivers(RustAfter(size, run), next) <==> SwiftDelivers(SwiftAfter(size, run), next)
    ensures KotlinDelivers(KotlinAfter(size, run), next) <==> SwiftDelivers(SwiftAfter(size, run), next)
  {
    assert next == (run + [next])[|run|];
    var history := OrdinaryHistory(size, run, next);
    RustAndSwiftAgree(RustAfter(size, run), history, next);
    KotlinAndSwiftAgree(RustAfter(size, run), next);
  }

  lemma {:induction false} OrdinaryHistory(size: int, run: seq<Datagram>, next: Datagram) returns (history: set<int>)
    requires 1 <= size < TWO_TO_THE_63
    requires Ordinary(size, run + [next])
    ensures RustAfter(size, run) == KotlinAfter(size, run) == SwiftAfter(size, run)
    ensures Represents(RustAfter(size, run), history)
    ensures forall h :: h in history ==> 1 <= h < TWO_TO_THE_63 - size
  {
    if run == [] {
      history := {};
    } else {
      var prefix, d := run[..|run| - 1], run[|run| - 1];
      assert forall i :: 0 <= i < |run| ==> (prefix + [d])[i] == (run + [next])[i];
      history := OrdinaryHistory(size, prefix, d);
      var w := RustAfter(size, prefix);
      assert d == (run + [next])[|run| - 1];
      RustAndSwiftAgree(w, history, d);
      KotlinAndSwiftAgree(w, d);
      GuardStepRefines(w, history, d.counter);
      if RustDelivers(w, d) {
        history := history + {d.counter};
      }
    }
  }
}
