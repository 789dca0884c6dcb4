/**
 The outbound scheduler of the host backend: four bounded drop-oldest queues served by a cursor
 that walks an eight-slot weighted schedule.
 */
module Outbound {
  import opened Bytes
  import opened Wrappers
  import opened Transport

  const MAX_PER_CHANNEL: nat := 128
  const SCHEDULE: seq<ChannelKind> := [Input, Control, Input, Audio, Control, Video, Input, Control]

  type Cursor = c: nat | c < 8

  /** The channel in a slot of the schedule. */
  function Scheduled(slot: Cursor): (r: ChannelKind)
    ensures r == SCHEDULE[slot]
  {
    match slot
    case 0 => Input
    case 1 => Control
    case 2 => Input
    case 3 => Audio
    case 4 => Control
    case 5 => Video
    case 6 => Input
    case 7 => Control
  }

  datatype Outgoing<B> = Outgoing(peer: Peer, packet: TransportPacket<B>)

  datatype Queues<B> = Queues(
    input: seq<Outgoing<B>>,
    control: seq<Outgoing<B>>,
    audio: seq<Outgoing<B>>,
    video: seq<Outgoing<B>>,
    cursor: Cursor,
    dropped: nat,
    highWatermark: nat)
  {
    function Queue(channel: ChannelKind): seq<Outgoing<B>> {
      match channel
      case Input => input
      case Control => control
      case Audio => audio
      case Video => video
    }

    function With(channel: ChannelKind, queue: seq<Outgoing<B>>): Queues<B> {
      match channel
      case Input => this.(input := queue)
      case Control => this.(control := queue)
      case Audio => this.(audio := queue)
      case Video => this.(video := queue)
    }

    function Len(): nat {
      |input| + |control| + |audio| + |video|
    }

    function Watermarked(): Queues<B> {
      this.(highWatermark := Max(highWatermark, Len()))
    }

    ghost predicate Valid() {
      && Len() <= highWatermark
      && Lane(input, Input) && Lane(control, Control) && Lane(audio, Audio) && Lane(video, Video)
    }
  }

  /** A queue within its bound, holding packets of its own channel. */
  ghost predicate Lane<B>(queue: seq<Outgoing<B>>, channel: ChannelKind) {
    && |queue| <= MAX_PER_CHANNEL
    && forall i :: 0 <= i < |queue| ==> queue[i].packet.channel == channel
  }

  const EMPTY_CURSOR: Cursor := 0

  function NoPackets<B>(): Queues<B> {
    Queues([], [], [], [], EMPTY_CURSOR, 0, 0)
  }

  function AfterPush<B>(q: Queues<B>, item: Outgoing<B>): Queues<B> {
    var channel := item.packet.channel;
    var queue := q.Queue(channel);
    if |queue| == MAX_PER_CHANNEL
    then q.With(channel, queue[1..] + [item]).(dropped := q.dropped + 1).Watermarked()
    else q.With(channel, queue + [item]).Watermarked()
  }

  function AfterPushFront<B>(q: Queues<B>, item: Outgoing<B>): Queues<B> {
    var channel := item.packet.channel;
    var queue := q.Queue(channel);
    if |queue| == MAX_PER_CHANNEL
    then q.With(channel, [item] + queue[..|queue| - 1]).(dropped := q.dropped + 1).Watermarked()
    else q.With(channel, [item] + queue).Watermarked()
  }

  /** `(cursor + offset) % 8` for the offsets in use. */
  function Ahead(cursor: Cursor, offset: nat): (r: Cursor)
    requires offset <= 8
    ensures r == (cursor + offset) % 8
  {
    if cursor + offset < 8 then cursor + offset else cursor + offset - 8
  }

  /** The channel scheduled `offset` slots after the cursor. */
  function Slot(cursor: Cursor, offset: nat): ChannelKind
    requires offset <= 8
  {
    Scheduled(Ahead(cursor, offset))
  }

  /** The first slot from `offset` on whose queue holds a packet; 8 when there is none. */
  function NextSlot<B>(q: Queues<B>, offset: nat): (r: nat)
    requires offset <= 8
    ensures offset <= r <= 8
    ensures r < 8 ==> q.Queue(Slot(q.cursor, r)) != []
    ensures forall k :: offset <= k < r ==> q.Queue(Slot(q.cursor, k)) == []
    decreases 8 - offset
  {
    if offset == 8 || q.Queue(Slot(q.cursor, offset)) != [] then offset else NextSlot(q, offset + 1)
  }

  function Popped<B>(q: Queues<B>): Option<Outgoing<B>> {
    var slot := NextSlot(q, 0);
    if slot == 8 then None else Some(q.Queue(Slot(q.cursor, slot))[0])
  }

  function AfterPop<B>(q: Queues<B>): Queues<B> {
    var slot := NextSlot(q, 0);
    if slot == 8 then q
    else
      var channel := Slot(q.cursor, slot);
      q.With(channel, q.Queue(channel)[1..]).(cursor := Ahead(q.cursor, slot + 1))
  }

  /** A packet put back goes first in its queue; when that is full, the last packet in it is dropped and
      counted. Nothing else changes but the high watermark. */
  lemma PutBackFirst<B>(q: Queues<B>, item: Outgoing<B>)
    ensures var q', c := AfterPushFront(q, item), item.packet.channel;
            var full := |q.Queue(c)| == 128;
            && q'.Queue(c) == [item] + (if full then q.Queue(c)[..127] else q.Queue(c))
            && (forall other :: other != c ==> q'.Queue(other) == q.Queue(other))
            && q'.dropped == q.dropped + (if full then 1 else 0) && q'.cursor == q.cursor
            && q'.highWatermark == if q'.Len() > q.highWatermark then q'.Len() else q.highWatermark
  {
  }

  class OutboundPacketQueues<B> {
    var input: seq<Outgoing<B>>
    var control: seq<Outgoing<B>>
    var audio: seq<Outgoing<B>>
    var video: seq<Outgoing<B>>
    var qosCursor: Cursor
    var droppedPacketsTotal: nat
    var highWatermark: nat

    ghost function State(): Queues<B>
      reads this
    {
      Queues(input, control, audio, video, qosCursor, droppedPacketsTotal, highWatermark)
    }

    constructor ()
      ensures State() == NoPackets()
    {
      input, control, audio, video := [], [], [], [];
      qosCursor, droppedPacketsTotal, highWatermark := EMPTY_CURSOR, 0, 0;
    }

    function QueueFor(channel: ChannelKind): (queue: seq<Outgoing<B>>)
      reads this
      ensures queue == State().Queue(channel)
    {
      match channel
      case Input => input
      case Control => control
      case Audio => audio
      case Video => video
    }

    method SetQueue(channel: ChannelKind, queue: seq<Outgoing<B>>)
      modifies this
      ensures State() == old(State()).With(channel, queue)
    {
      match channel {
        case Input => input := queue;
        case Control => control := queue;
        case Audio => audio := queue;
        case Video => video := queue;
      }
    }

    method Push(item: Outgoing<B>)
      modifies this
      ensures State() == AfterPush(old(State()), item)
    {
      var channel := item.packet.channel;
      var queue := QueueFor(channel);
      var dropping := |queue| == MAX_PER_CHANNEL;
      if dropping {
        queue := queue[1..];
      }
      SetQueue(channel, queue + [item]);
      if dropping {
        droppedPacketsTotal := droppedPacketsTotal + 1;
      }
      UpdateHighWatermark();
    }

    method PushFront(item: Outgoing<B>)
      modifies this
      ensures State() == AfterPushFront(old(State()), item)
    {
      var channel := item.packet.channel;
      var queue := QueueFor(channel);
      var dropping := |queue| == MAX_PER_CHANNEL;
      if dropping {
        queue := queue[..|queue| - 1];
      }
      SetQueue(channel, [item] + queue);
      if dropping {
        droppedPacketsTotal := droppedPacketsTotal + 1;
      }
      UpdateHighWatermark();
    }

    method PopNext() returns (r: Option<Outgoing<B>>)
      modifies this
      ensures r == Popped(old(State())) && State() == AfterPop(old(State()))
    {
      for offset := 0 to |SCHEDULE|
        invariant State() == old(State())
        invariant NextSlot(old(State()), 0) == NextSlot(old(State()), offset)
      {
        var index := (qosCursor + offset) % |SCHEDULE|;
        var channel := SCHEDULE[index];
        var queue := QueueFor(channel);
        if queue != [] {
          SetQueue(channel, queue[1..]);
          qosCursor := (index + 1) % |SCHEDULE|;
          return Some(queue[0]);
        }
      }
      return None;
    }

    function Len(): (n: nat)
      reads this
      ensures n == State().Len()
    {
      |input| + |control| + |audio| + |video|
    }

    method UpdateHighWatermark()
      modifies this
      ensures State() == old(State()).Watermarked()
    {
      highWatermark := Max(highWatermark, Len());
    }
  }

  // ---------------------------------------------------------------------------------------------
  // Every operation keeps the queues valid
  // ---------------------------------------------------------------------------------------------

  lemma WithKeepsLanes<B>(q: Queues<B>, channel: ChannelKind, queue: seq<Outgoing<B>>)
    requires q.Valid() && Lane(queue, channel)
    ensures q.With(channel, queue).Watermarked().Valid()
    ensures |queue| <= |q.Queue(channel)| ==> q.With(channel, queue).Valid()
  {
  }

  lemma QueueIsLane<B>(q: Queues<B>, channel: ChannelKind)
    requires q.Valid()
    ensures Lane(q.Queue(channel), channel)
  {
  }

  lemma PushKeepsValid<B>(q: Queues<B>, item: Outgoing<B>)
    requires q.Valid()
    ensures AfterPush(q, item).Valid()
  {
    var channel := item.packet.channel;
    var queue := q.Queue(channel);
    QueueIsLane(q, channel);
    WithKeepsLanes(q, channel, if |queue| == MAX_PER_CHANNEL then queue[1..] + [item] else queue + [item]);
  }

  lemma PushFrontKeepsValid<B>(q: Queues<B>, item: Outgoing<B>)
    requires q.Valid()
    ensures AfterPushFront(q, item).Valid()
  {
    var channel := item.packet.channel;
    var queue := q.Queue(channel);
    QueueIsLane(q, channel);
    WithKeepsLanes(q, channel, if |queue| == MAX_PER_CHANNEL then [item] + queue[..|queue| - 1] else [item] + queue);
  }

  lemma PopKeepsValid<B>(q: Queues<B>)
    requires q.Valid()
    ensures AfterPop(q).Valid()
    ensures Popped(q).Some? ==> var item := Popped(q).value; var channel := item.packet.channel;
                                && q.Queue(channel) == [item] + AfterPop(q).Queue(channel)
                                && AfterPop(q) == q.With(channel, q.Queue(channel)[1..]).(cursor := AfterPop(q).cursor)
  {
    var slot := NextSlot(q, 0);
    if slot < 8 {
      var channel := Slot(q.cursor, slot);
      QueueIsLane(q, channel);
      assert Popped(q).value.packet.channel == channel;
      WithKeepsLanes(q, channel, q.Queue(channel)[1..]);
    }
  }

  /** Nothing is popped exactly when all four queues are empty. */
  lemma PopsUnlessEmpty<B>(q: Queues<B>)
    ensures Popped(q).None? <==> q.Len() == 0
  {
    if NextSlot(q, 0) == 8 {
      forall channel
        ensures q.Queue(channel) == []
      {
        ScheduledSoon(q.cursor, channel);
        var k := Distance(q.cursor, channel, 0);
        assert q.Queue(Slot(q.cursor, k)) == [];
      }
      assert q.Queue(Input) == q.Queue(Control) == q.Queue(Audio) == q.Queue(Video) == [];
    }
  }

  /** Putting back what was just popped restores all four queues, drops nothing, and leaves the
      counters alone; only the cursor has moved. */
  lemma PushFrontRestores<B>(q: Queues<B>)
    requires q.Valid() && Popped(q).Some?
    ensures AfterPushFront(AfterPop(q), Popped(q).value) == q.(cursor := AfterPop(q).cursor)
  {
    PopKeepsValid(q);
    var item := Popped(q).value;
    var channel := item.packet.channel;
    QueueIsLane(q, channel);
    assert [item] + AfterPop(q).Queue(channel) == q.Queue(channel);
  }

  // ---------------------------------------------------------------------------------------------
  // Service bounds
  // ---------------------------------------------------------------------------------------------

  /** How many slots after the cursor, from `from` on, the channel is next scheduled. */
  function Distance(cursor: Cursor, channel: ChannelKind, from: nat): (r: nat)
    requires from <= 8
    ensures from <= r <= 8
    ensures r < 8 ==> Slot(cursor, r) == channel
    ensures forall k :: from <= k < r ==> Slot(cursor, k) != channel
    decreases 8 - from
  {
    if from == 8 || Slot(cursor, from) == channel then from else Distance(cursor, channel, from + 1)
  }

  /** The number of `pop_next` calls within which a waiting channel is served. */
  function Bound(channel: ChannelKind): nat {
    match channel
    case Input => 4
    case Control => 3
    case Audio => 8
    case Video => 8
  }

  lemma ScheduledSoon(cursor: Cursor, channel: ChannelKind)
    ensures Distance(cursor, channel, 0) < Bound(channel)
  {
    var offset := match channel {
      case Input => if cursor <= 0 then 0 else if cursor <= 2 then 2 - cursor else if cursor <= 6 then 6 - cursor else 1
      case Control => if cursor <= 1 then 1 - cursor else if cursor <= 4 then 4 - cursor else 7 - cursor
      case Audio => if cursor <= 3 then 3 - cursor else 11 - cursor
      case Video => if cursor <= 5 then 5 - cursor else 13 - cursor
    };
    assert offset < Bound(channel) && Slot(cursor, offset) == channel;
  }

  /** Operations in any interleaving: pushes at either end, and pops. */
  datatype Op<B> = PushBack(item: Outgoing<B>) | PushAhead(item: Outgoing<B>) | Pop

  function Apply<B>(q: Queues<B>, op: Op<B>): Queues<B> {
    match op
    case PushBack(item) => AfterPush(q, item)
    case PushAhead(item) => AfterPushFront(q, item)
    case Pop => AfterPop(q)
  }

  function PopCount<B>(ops: seq<Op<B>>): nat {
    if ops == [] then 0 else (if ops[0].Pop? then 1 else 0) + PopCount(ops[1..])
  }

  /** What the pops of a run return, in order. */
  function Served<B>(q: Queues<B>, ops: seq<Op<B>>): (r: seq<Option<Outgoing<B>>>)
    ensures |r| == PopCount(ops)
    decreases |ops|
  {
    if ops == [] then []
    else (if ops[0].Pop? then [Popped(q)] else []) + Served(Apply(q, ops[0]), ops[1..])
  }

  ghost predicate Serves<B>(r: Option<Outgoing<B>>, channel: ChannelKind) {
    r.Some? && r.value.packet.channel == channel
  }

  lemma ApplyKeepsValid<B>(q: Queues<B>, op: Op<B>, channel: ChannelKind)
    requires q.Valid()
    ensures Apply(q, op).Valid()
    ensures !op.Pop? ==> Apply(q, op).cursor == q.cursor
    ensures !op.Pop? && q.Queue(channel) != [] ==> Apply(q, op).Queue(channel) != []
  {
    match op {
      case PushBack(item) => PushKeepsValid(q, item);
      case PushAhead(item) => PushFrontKeepsValid(q, item);
      case Pop => PopKeepsValid(q);
    }
  }

  /** From any valid state, cursor anywhere, and whatever pushes are interleaved: a channel with a
      packet waiting is served by one of the first `Bound(channel)` pops. */
  lemma ServiceBound<B>(q: Queues<B>, ops: seq<Op<B>>, channel: ChannelKind)
    requires q.Valid() && q.Queue(channel) != []
    requires PopCount(ops) >= Bound(channel)
    ensures exists k :: 0 <= k < Bound(channel) && Serves(Served(q, ops)[k], channel)
  {
    ScheduledSoon(q.cursor, channel);
    var k := ServedByDistance(q, ops, channel);
  }

  lemma {:induction false} ServedByDistance<B>(q: Queues<B>, ops: seq<Op<B>>, channel: ChannelKind) returns (k: nat)
    requires q.Valid() && q.Queue(channel) != []
    requires Distance(q.cursor, channel, 0) < 8
    requires PopCount(ops) > Distance(q.cursor, channel, 0)
    ensures k <= Distance(q.cursor, channel, 0) && Serves(Served(q, ops)[k], channel)
    decreases |ops|
  {
    ApplyKeepsValid(q, ops[0], channel);
    if !ops[0].Pop? {
      k := ServedByDistance(Apply(q, ops[0]), ops[1..], channel);
    } else if NextSlot(q, 0) == Distance(q.cursor, channel, 0) {
      SlotServes(q);
      k := 0;
    } else {
      PopApproaches(q, channel);
      k := ServedByDistance(AfterPop(q), ops[1..], channel);
      assert Served(q, ops) == [Popped(q)] + Served(AfterPop(q), ops[1..]);
      k := k + 1;
    }
  }

  /** A pop that serves another channel leaves the queue alone and moves the cursor closer. */
  lemma PopApproaches<B>(q: Queues<B>, channel: ChannelKind)
    requires q.Valid() && q.Queue(channel) != []
    requires Distance(q.cursor, channel, 0) < 8 && NextSlot(q, 0) != Distance(q.cursor, channel, 0)
    ensures AfterPop(q).Queue(channel) == q.Queue(channel)
    ensures Distance(AfterPop(q).cursor, channel, 0) < Distance(q.cursor, channel, 0)
  {
    var slot, d := NextSlot(q, 0), Distance(q.cursor, channel, 0);
    assert Slot(q.cursor, d) == channel;
    assert slot < d;
    DistanceShrinks(q.cursor, channel, slot + 1);
  }

  lemma SlotServes<B>(q: Queues<B>)
    requires q.Valid() && NextSlot(q, 0) < 8
    ensures Serves(Popped(q), Slot(q.cursor, NextSlot(q, 0)))
  {
    QueueIsLane(q, Slot(q.cursor, NextSlot(q, 0)));
  }

  lemma DistanceShrinks(cursor: Cursor, channel: ChannelKind, steps: nat)
    requires steps <= Distance(cursor, channel, 0) < 8
    ensures Distance(Ahead(cursor, steps), channel, 0) == Distance(cursor, channel, 0) - steps
  {
    var moved := Ahead(cursor, steps);
    forall k | 0 <= k < 8 - steps
      ensures Slot(moved, k) == Slot(cursor, steps + k)
    {
    }
    var d := Distance(cursor, channel, 0);
    assert Slot(moved, d - steps) == channel;
  }

  // ---------------------------------------------------------------------------------------------
  // Weights
  // ---------------------------------------------------------------------------------------------

  function Weight(channel: ChannelKind): nat {
    match channel
    case Input => 3
    case Control => 3
    case Audio => 1
    case Video => 1
  }

  function Hit(scheduled: ChannelKind, channel: ChannelKind): nat {
    if scheduled == channel then 1 else 0
  }

  /** How often a channel is scheduled in the `n` slots from the cursor. */
  function Occurrences(cursor: Cursor, channel: ChannelKind, n: nat): nat
    requires n <= 8
  {
    if n == 0 then 0 else Occurrences(cursor, channel, n - 1) + Hit(Slot(cursor, n - 1), channel)
  }

  lemma FullCycle(cursor: Cursor, channel: ChannelKind)
    ensures Occurrences(cursor, channel, 8) == Weight(channel)
  {
    assert Occurrences(cursor, channel, 1) == Hit(Slot(cursor, 0), channel);
    assert Occurrences(cursor, channel, 3)
        == Occurrences(cursor, channel, 1) + Hit(Slot(cursor, 1), channel) + Hit(Slot(cursor, 2), channel);
    assert Occurrences(cursor, channel, 5)
        == Occurrences(cursor, channel, 3) + Hit(Slot(cursor, 3), channel) + Hit(Slot(cursor, 4), channel);
    assert Occurrences(cursor, channel, 7)
        == Occurrences(cursor, channel, 5) + Hit(Slot(cursor, 5), channel) + Hit(Slot(cursor, 6), channel);
    RoundTheSchedule(cursor, channel);
  }

  lemma RoundTheSchedule(cursor: Cursor, channel: ChannelKind)
    ensures Hit(Slot(cursor, 0), channel) + Hit(Slot(cursor, 1), channel) + Hit(Slot(cursor, 2), channel)
          + Hit(Slot(cursor, 3), channel) + Hit(Slot(cursor, 4), channel) + Hit(Slot(cursor, 5), channel)
          + Hit(Slot(cursor, 6), channel) + Hit(Slot(cursor, 7), channel) == Weight(channel)
  {
    match cursor {
      case 0 => case 1 => case 2 => case 3 => case 4 => case 5 => case 6 => case 7 =>
    }
  }

  lemma {:induction false} OccurrencesGrow(cursor: Cursor, channel: ChannelKind, m: nat, n: nat)
    requires m <= n <= 8
    ensures Occurrences(cursor, channel, m) <= Occurrences(cursor, channel, n)
  {
    if m < n {
      OccurrencesGrow(cursor, channel, m, n - 1);
    }
  }

  function PopMany<B>(q: Queues<B>, n: nat): Queues<B> {
    if n == 0 then q else AfterPop(PopMany(q, n - 1))
  }

  ghost predicate Backlogged<B>(q: Queues<B>) {
    forall channel :: |q.Queue(channel)| >= Weight(channel)
  }

  /** Eight pops with every queue backlogged follow the schedule slot by slot from any cursor, so
      they take exactly three input, three control, one audio and one video packet, each queue's
      oldest first, and bring the cursor back. */
  lemma WeightedService<B>(q: Queues<B>)
    requires q.Valid() && Backlogged(q)
    ensures forall n :: 0 <= n < 8 ==> Serves(Popped(PopMany(q, n)), Slot(q.cursor, n))
    ensures forall channel :: PopMany(q, 8).Queue(channel) == q.Queue(channel)[Weight(channel)..]
    ensures PopMany(q, 8).cursor == q.cursor
  {
    forall n | 0 <= n < 8
      ensures Serves(Popped(PopMany(q, n)), Slot(q.cursor, n))
    {
      PopsFollowSchedule(q, n);
      ScheduledQueueWaits(q, n);
      SlotServes(PopMany(q, n));
    }
    PopsFollowSchedule(q, 8);
    forall channel
      ensures PopMany(q, 8).Queue(channel) == q.Queue(channel)[Weight(channel)..]
    {
      FullCycle(q.cursor, channel);
      assert |q.Queue(channel)| >= Weight(channel);
    }
  }

  ghost predicate AfterSlots<B>(q: Queues<B>, n: nat, q': Queues<B>) {
    && q'.Valid() && n <= 8 && q'.cursor == Ahead(q.cursor, n)
    && forall channel :: Occurrences(q.cursor, channel, n) <= |q.Queue(channel)|
         && q'.Queue(channel) == q.Queue(channel)[Occurrences(q.cursor, channel, n)..]
  }

  lemma {:induction false} PopsFollowSchedule<B>(q: Queues<B>, n: nat)
    requires q.Valid() && Backlogged(q) && n <= 8
    ensures AfterSlots(q, n, PopMany(q, n))
  {
    if n == 0 {
      assert forall channel :: q.Queue(channel)[0..] == q.Queue(channel);
    } else {
      PopsFollowSchedule(q, n - 1);
      ScheduledQueueWaits(q, n - 1);
      OnePopFollowsSchedule(q, n - 1, PopMany(q, n - 1));
    }
  }

  lemma OnePopFollowsSchedule<B>(q: Queues<B>, n: nat, before: Queues<B>)
    requires q.Valid() && Backlogged(q) && n < 8
    requires AfterSlots(q, n, before)
    requires NextSlot(before, 0) == 0 && Slot(before.cursor, 0) == Slot(q.cursor, n)
    ensures AfterSlots(q, n + 1, AfterPop(before))
  {
    PopKeepsValid(before);
    forall channel
      ensures Occurrences(q.cursor, channel, n + 1) <= |q.Queue(channel)|
      ensures AfterPop(before).Queue(channel) == q.Queue(channel)[Occurrences(q.cursor, channel, n + 1)..]
    {
      ScheduleFits(q, channel, n + 1);
      assert before.Queue(channel) == q.Queue(channel)[Occurrences(q.cursor, channel, n)..];
      OnePop(q, n, before, channel);
    }
  }

  lemma OnePop<B>(q: Queues<B>, n: nat, before: Queues<B>, channel: ChannelKind)
    requires n < 8 && Occurrences(q.cursor, channel, n + 1) <= |q.Queue(channel)|
    requires before.Queue(channel) == q.Queue(channel)[Occurrences(q.cursor, channel, n)..]
    requires NextSlot(before, 0) == 0 && Slot(before.cursor, 0) == Slot(q.cursor, n)
    ensures AfterPop(before).Queue(channel) == q.Queue(channel)[Occurrences(q.cursor, channel, n + 1)..]
  {
    HeadTaken(before, channel);
  }

  lemma HeadTaken<B>(q: Queues<B>, channel: ChannelKind)
    requires NextSlot(q, 0) == 0
    ensures AfterPop(q).Queue(channel) == q.Queue(channel)[Hit(Slot(q.cursor, 0), channel)..]
  {
  }

  lemma ScheduleFits<B>(q: Queues<B>, channel: ChannelKind, n: nat)
    requires Backlogged(q) && n <= 8
    ensures Occurrences(q.cursor, channel, n) <= |q.Queue(channel)|
  {
    FullCycle(q.cursor, channel);
    OccurrencesGrow(q.cursor, channel, n, 8);
    assert |q.Queue(channel)| >= Weight(channel);
  }

  lemma ScheduledQueueWaits<B>(q: Queues<B>, n: nat)
    requires q.Valid() && Backlogged(q) && n < 8
    requires AfterSlots(q, n, PopMany(q, n))
    ensures NextSlot(PopMany(q, n), 0) == 0 && Slot(PopMany(q, n).cursor, 0) == Slot(q.cursor, n)
  {
    var channel := Slot(q.cursor, n);
    ScheduleFits(q, channel, n + 1);
    assert PopMany(q, n).Queue(channel) == q.Queue(channel)[Occurrences(q.cursor, channel, n)..];
    assert Slot(PopMany(q, n).cursor, 0) == channel;
  }

  // ---------------------------------------------------------------------------------------------
  // Order and conservation over whole runs
  // ---------------------------------------------------------------------------------------------

  /** What a flush does with the packet it pops: sends it, puts it back under backpressure, or loses
      it to an error it returns. */
  datatype Move<B> = Enqueue(item: Outgoing<B>) | Send | Bounce | Lose

  datatype Cause = Sent | DroppedOldest | LostToError

  datatype Departure<B> = Departure(item: Outgoing<B>, cause: Cause)

  /** The queues together with everything that ever entered and left them. */
  datatype Ledger<B> = Ledger(
    queues: Queues<B>,
    pushed: seq<Outgoing<B>>,
    departed: seq<Departure<B>>,
    peak: nat)                     // the greatest total ever reached

  function OnChannel<B>(items: seq<Outgoing<B>>, channel: ChannelKind): seq<Outgoing<B>> {
    if items == [] then []
    else
      var last := items[|items| - 1];
      OnChannel(items[..|items| - 1], channel) + if last.packet.channel == channel then [last] else []
  }

  function Items<B>(departed: seq<Departure<B>>): (r: seq<Outgoing<B>>)
    ensures |r| == |departed|
  {
    seq(|departed|, i requires 0 <= i < |departed| => departed[i].item)
  }

  function Count<B>(departed: seq<Departure<B>>, cause: Cause): nat {
    if departed == [] then 0
    else Count(departed[..|departed| - 1], cause) + if departed[|departed| - 1].cause == cause then 1 else 0
  }

  function Leave<B>(l: Ledger<B>, cause: Cause): Ledger<B> {
    if Popped(l.queues).None? then l
    else l.(queues := AfterPop(l.queues), departed := l.departed + [Departure(Popped(l.queues).value, cause)])
  }

  function Apply1<B>(l: Ledger<B>, move: Move<B>): Ledger<B> {
    match move
    case Enqueue(item) =>
      var queue := l.queues.Queue(item.packet.channel);
      var q := AfterPush(l.queues, item);
      Ledger(q, l.pushed + [item],
             if |queue| == MAX_PER_CHANNEL then l.departed + [Departure(queue[0], DroppedOldest)] else l.departed,
             Max(l.peak, q.Len()))
    case Send => Leave(l, Sent)
    case Lose => Leave(l, LostToError)
    case Bounce =>
      if Popped(l.queues).None? then l
      else
        var q := AfterPushFront(AfterPop(l.queues), Popped(l.queues).value);
        l.(queues := q, peak := Max(l.peak, q.Len()))
  }

  function Account<B>(moves: seq<Move<B>>): Ledger<B> {
    if moves == [] then Ledger(NoPackets(), [], [], 0)
    else Apply1(Account(moves[..|moves| - 1]), moves[|moves| - 1])
  }

  ghost predicate Balanced<B>(l: Ledger<B>) {
    && l.queues.Valid()
    && l.queues.dropped == Count(l.departed, DroppedOldest)
    && l.queues.highWatermark == l.peak
    && |l.pushed| == |l.departed| + l.queues.Len()
    && forall channel :: InOrder(l, channel)
  }

  /** On each channel, what left followed by what is queued is what was pushed, in order. */
  ghost predicate InOrder<B>(l: Ledger<B>, channel: ChannelKind) {
    OnChannel(l.pushed, channel) == OnChannel(Items(l.departed), channel) + l.queues.Queue(channel)
  }

  /** Over every run from empty queues each channel is a first-in-first-out queue that sheds only its
      oldest packets; every packet pushed was sent, dropped, lost to an error or is still queued; and
      the high watermark is the greatest total ever reached, at most four full queues. */
  lemma {:induction false} Conservation<B>(moves: seq<Move<B>>)
    ensures var l := Account(moves);
            && Balanced(l)
            && l.peak <= 4 * MAX_PER_CHANNEL
            && |l.pushed| == Count(l.departed, Sent) + l.queues.dropped + Count(l.departed, LostToError) + l.queues.Len()
  {
    if moves != [] {
      var l, move := Account(moves[..|moves| - 1]), moves[|moves| - 1];
      Conservation(moves[..|moves| - 1]);
      match move {
        case Enqueue(item) => EnqueueBalances(l, item);
        case Send => LeaveBalances(l, Sent);
        case Lose => LeaveBalances(l, LostToError);
        case Bounce =>
          if Popped(l.queues).Some? {
            PushFrontRestores(l.queues);
            assert forall channel :: InOrder(l, channel) ==> InOrder(Apply1(l, move), channel);
          }
      }
    } else {
      assert forall channel :: InOrder(Account<B>([]), channel);
    }
    CausesPartition(Account(moves).departed);
  }

  lemma EnqueueBalances<B>(l: Ledger<B>, item: Outgoing<B>)
    requires Balanced(l)
    ensures Balanced(Apply1(l, Enqueue(item)))
    ensures l.peak <= 4 * MAX_PER_CHANNEL ==> Apply1(l, Enqueue(item)).peak <= 4 * MAX_PER_CHANNEL
  {
    PushKeepsValid(l.queues, item);
    QueueIsLane(l.queues, item.packet.channel);
    EnqueueCounts(l, item);
    forall other
      ensures InOrder(Apply1(l, Enqueue(item)), other)
    {
      assert InOrder(l, other);
      EnqueueInOrder(l, item, other);
    }
  }

  lemma EnqueueCounts<B>(l: Ledger<B>, item: Outgoing<B>)
    requires Lane(l.queues.Queue(item.packet.channel), item.packet.channel)
    requires l.queues.dropped == Count(l.departed, DroppedOldest)
    requires |l.pushed| == |l.departed| + l.queues.Len()
    ensures var l' := Apply1(l, Enqueue(item));
            && l'.queues.dropped == Count(l'.departed, DroppedOldest)
            && |l'.pushed| == |l'.departed| + l'.queues.Len()
  {
    var queue := l.queues.Queue(item.packet.channel);
    if |queue| == MAX_PER_CHANNEL {
      ItemsExtend(l.departed, Departure(queue[0], DroppedOldest));
    }
  }

  lemma EnqueueInOrder<B>(l: Ledger<B>, item: Outgoing<B>, other: ChannelKind)
    requires Lane(l.queues.Queue(item.packet.channel), item.packet.channel)
    requires InOrder(l, other)
    ensures InOrder(Apply1(l, Enqueue(item)), other)
  {
    QueueAfterPush(l.queues, item, other);
    OnChannelExtends(l.pushed, item, other);
    var queue := l.queues.Queue(item.packet.channel);
    if |queue| == MAX_PER_CHANNEL {
      ItemsExtend(l.departed, Departure(queue[0], DroppedOldest));
      Slide(OnChannel(Items(l.departed), other), queue, item);
    }
  }

  lemma QueueAfterPush<B>(q: Queues<B>, item: Outgoing<B>, other: ChannelKind)
    ensures var queue := q.Queue(item.packet.channel);
            AfterPush(q, item).Queue(other) ==
            if other != item.packet.channel then q.Queue(other)
            else if |queue| == MAX_PER_CHANNEL then queue[1..] + [item]
            else queue + [item]
  {
  }

  lemma QueueAfterPop<B>(q: Queues<B>, other: ChannelKind)
    requires q.Valid() && Popped(q).Some?
    ensures q.Queue(other) ==
            (if other == Popped(q).value.packet.channel then [Popped(q).value] else []) + AfterPop(q).Queue(other)
  {
    PopKeepsValid(q);
  }

  lemma OnChannelExtends<B>(items: seq<Outgoing<B>>, item: Outgoing<B>, channel: ChannelKind)
    ensures OnChannel(items + [item], channel)
         == OnChannel(items, channel) + if item.packet.channel == channel then [item] else []
  {
    assert (items + [item])[..|items|] == items;
  }

  lemma Slide<T>(gone: seq<T>, queue: seq<T>, item: T)
    requires queue != []
    ensures (gone + queue) + [item] == (gone + [queue[0]]) + (queue[1..] + [item])
  {
  }

  lemma LeaveBalances<B>(l: Ledger<B>, cause: Cause)
    requires Balanced(l) && cause != DroppedOldest
    ensures Balanced(Leave(l, cause)) && Leave(l, cause).peak == l.peak
  {
    if Popped(l.queues).Some? {
      PopKeepsValid(l.queues);
      ItemsExtend(l.departed, Departure(Popped(l.queues).value, cause));
      forall other
        ensures InOrder(Leave(l, cause), other)
      {
        assert InOrder(l, other);
        LeaveInOrder(l, cause, other);
      }
    }
  }

  lemma LeaveInOrder<B>(l: Ledger<B>, cause: Cause, other: ChannelKind)
    requires l.queues.Valid() && InOrder(l, other) && Popped(l.queues).Some?
    ensures InOrder(Leave(l, cause), other)
  {
    var item := Popped(l.queues).value;
    var head := if other == item.packet.channel then [item] else [];
    QueueAfterPop(l.queues, other);
    ItemsExtend(l.departed, Departure(item, cause));
    assert OnChannel(Items(l.departed + [Departure(item, cause)]), other) == OnChannel(Items(l.departed), other) + head;
    Append(OnChannel(Items(l.departed), other), head, AfterPop(l.queues).Queue(other));
  }

  lemma ItemsExtend<B>(departed: seq<Departure<B>>, d: Departure<B>)
    ensures Items(departed + [d]) == Items(departed) + [d.item]
    ensures forall channel :: OnChannel(Items(departed + [d]), channel)
              == OnChannel(Items(departed), channel) + if d.item.packet.channel == channel then [d.item] else []
    ensures forall cause :: Count(departed + [d], cause) == Count(departed, cause) + if d.cause == cause then 1 else 0
  {
    assert (departed + [d])[..|departed|] == departed;
    var items := Items(departed + [d]);
    assert items == Items(departed) + [d.item];
    assert items[..|departed|] == Items(departed);
  }

  lemma {:induction false} CausesPartition<B>(departed: seq<Departure<B>>)
    ensures |departed| == Count(departed, Sent) + Count(departed, DroppedOldest) + Count(departed, LostToError)
  {
    if departed != [] {
      CausesPartition(departed[..|departed| - 1]);
    }
  }
}
