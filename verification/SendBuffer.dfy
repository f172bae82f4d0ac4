/**
 The send side of a circuit: unacked payloads, the byte window, and the counters the window
 moves with. All of them are uint32 in the original and wrap; scale factors are reals and
 a conversion to uint32 takes the floor.
 */
module SendBuffer {
  import opened Bytes
  import opened Messages
  import opened Weights

  datatype Options = Options(
    startSize: uint32,
    maxSize: uint32,
    minSize: uint32,
    increaseThresh: uint32,
    increaseScale: real,
    retxThresh: uint32,
    retxScaleDown: real,     // TxPortalRetxScale
    dupAckThresh: uint32,
    retxScale: real,         // RetxScale
    retxStartMs: uint32,
    retxAddMs: uint32)

  predicate ValidOptions(o: Options) {
    && o.minSize <= o.maxSize && o.startSize <= o.maxSize
    && o.increaseScale >= 0.0 && o.retxScaleDown >= 0.0 && o.retxScale >= 0.0
  }

  datatype Send = Send(
    buffer: map<int, Payload>,
    windowSize: uint32,
    sendSize: uint32,
    recvSize: uint32,
    accumulator: uint32,
    successfulAcks: uint32,
    duplicateAcks: uint32,
    retransmits: uint32,
    retxScale: real,
    retxThreshold: uint32,
    lastRtt: uint16)

  function NewSend(o: Options): Send {
    Send(map[], o.startSize, 0, 0, 0, 0, 0, 0, o.retxScale, o.retxStartMs, 0)
  }

  datatype Ack = Ack(sequence: seq<int>, recvBufferSize: uint32, rtt: uint16)

  /** Go's `uint32(float64(n) * f)`. */
  function Scaled(n: nat, f: real): uint32 {
    ToU32(((n as real) * f).Floor)
  }

  function Buffered(s: Send, p: Payload): Send {
    s.(buffer := s.buffer[p.sequence as int := p], sendSize := ToU32(s.sendSize + |p.data|))
  }

  predicate IsBlocked(o: Options, s: Send) {
    o.maxSize < s.recvSize || s.windowSize < s.sendSize
  }

  /** Every `increaseThresh` acks the window grows by what was delivered, and is then capped. */
  function Increase(o: Options, s: Send): Send {
    if s.successfulAcks >= o.increaseThresh then
      var grown := ToU32(s.windowSize + Scaled(s.accumulator, o.increaseScale));
      var scale := s.retxScale - 0.01;
      s.(successfulAcks := 0,
         windowSize := if grown > o.maxSize then o.maxSize else grown,
         retxScale := if scale < o.retxScale then o.retxScale else scale)
    else s
  }

  function Delivered(o: Options, s: Send, number: int): Send
    requires number in s.buffer
  {
    var n := ToU32(|s.buffer[number].data|);
    Increase(o, s.(buffer := s.buffer - {number},
                   accumulator := ToU32(s.accumulator + n),
                   successfulAcks := ToU32(s.successfulAcks + 1),
                   sendSize := ToU32(s.sendSize - n)))
  }

  function Duplicate(o: Options, s: Send): Send {
    var n := ToU32(s.duplicateAcks + 1);
    if n >= o.dupAckThresh then s.(duplicateAcks := 0, retxScale := s.retxScale + 0.2) else s.(duplicateAcks := n)
  }

  function AckOne(o: Options, s: Send, number: int): Send {
    if number in s.buffer then Delivered(o, s, number) else Duplicate(o, s)
  }

  function AckAll(o: Options, s: Send, numbers: seq<int>): Send {
    if numbers == [] then s else AckOne(o, AckAll(o, s, numbers[..|numbers| - 1]), numbers[|numbers| - 1])
  }

  /** The 16-bit difference of two clock readings. */
  function RttSample(now: nat, stamp: uint16): uint16 {
    ToU16(ToU16(now) - stamp)
  }

  /** Halving sum of the sample and the last value; the 16-bit sum may wrap. */
  function Smooth(last: uint16, sample: uint16): uint16 {
    if last > 0 then ToU16(sample + last) / 2 else sample
  }

  function TakeRtt(o: Options, s: Send, stamp: uint16, now: nat): Send {
    if stamp > 0 then
      var rtt := Smooth(s.lastRtt, RttSample(now, stamp));
      s.(lastRtt := rtt, retxThreshold := ToU32(Scaled(rtt, s.retxScale) + o.retxAddMs))
    else s
  }

  function ReceiveAck(o: Options, s: Send, ack: Ack, now: nat): Send {
    TakeRtt(o, AckAll(o, s, ack.sequence).(recvSize := ack.recvBufferSize), ack.rtt, now)
  }

  /** `scale` of the original. */
  function ScaleWindow(o: Options, window: uint32, factor: real): uint32 {
    var w := Scaled(window, factor);
    if factor > 1.0 then if w > o.maxSize then o.maxSize else w
    else if w < o.minSize then o.minSize else w
  }

  function RetransmitOne(o: Options, s: Send): Send {
    var n := ToU32(s.retransmits + 1);
    if n >= o.retxThresh then s.(retransmits := 0, accumulator := 0, windowSize := ScaleWindow(o, s.windowSize, o.retxScaleDown))
    else s.(retransmits := n)
  }

  function RetransmitMany(o: Options, s: Send, count: nat): Send {
    if count == 0 then s else RetransmitOne(o, RetransmitMany(o, s, count - 1))
  }

  // ---------------------------------------------------------------- what every event keeps

  /** The byte counter is the sum over the unacked map, and the window never exceeds its maximum. */
  ghost predicate Accounted(o: Options, s: Send) {
    s.sendSize == ToU32(Total(s.buffer)) && s.windowSize <= o.maxSize && s.retxScale >= o.retxScale
  }

  lemma NewSendAccounted(o: Options)
    requires ValidOptions(o)
    ensures Accounted(o, NewSend(o))
  {
  }

  lemma BufferedKeeps(o: Options, s: Send, p: Payload)
    requires Accounted(o, s) && p.sequence as int !in s.buffer
    ensures Accounted(o, Buffered(s, p))
    ensures Total(Buffered(s, p).buffer) == Total(s.buffer) + |p.data|
  {
    TotalInsert(s.buffer, p.sequence as int, p);
    AddSize(Total(s.buffer), |p.data|);
  }

  lemma AckOneKeeps(o: Options, s: Send, number: int)
    requires ValidOptions(o) && Accounted(o, s)
    ensures Accounted(o, AckOne(o, s, number))
    ensures AckOne(o, s, number).buffer == s.buffer - {number}
    ensures Total(AckOne(o, s, number).buffer) <= Total(s.buffer)
  {
    if number in s.buffer {
      TotalRemove(s.buffer, number);
      SubSize(Total(s.buffer), |s.buffer[number].data|);
    } else {
      assert s.buffer - {number} == s.buffer;
    }
  }

  lemma {:induction false} AckAllKeeps(o: Options, s: Send, numbers: seq<int>)
    requires ValidOptions(o) && Accounted(o, s)
    ensures Accounted(o, AckAll(o, s, numbers))
    ensures AckAll(o, s, numbers).buffer == s.buffer - (set n | n in numbers)
    ensures Total(AckAll(o, s, numbers).buffer) <= Total(s.buffer)
    decreases |numbers|
  {
    if numbers == [] {
      assert s.buffer - (set n | n in numbers) == s.buffer;
    } else {
      var front, last := numbers[..|numbers| - 1], numbers[|numbers| - 1];
      AckAllKeeps(o, s, front);
      AckOneKeeps(o, AckAll(o, s, front), last);
      assert forall n :: n in numbers <==> n in front || n == last;
    }
  }

  /** An ack removes exactly the numbers it lists, and only bytes leave the counter that leave the map. */
  lemma AckKeeps(o: Options, s: Send, ack: Ack, now: nat)
    requires ValidOptions(o) && Accounted(o, s)
    ensures Accounted(o, ReceiveAck(o, s, ack, now))
    ensures ReceiveAck(o, s, ack, now).buffer == s.buffer - (set n | n in ack.sequence)
    ensures Total(ReceiveAck(o, s, ack, now).buffer) <= Total(s.buffer)
  {
    AckAllKeeps(o, s, ack.sequence);
  }

  lemma {:induction false} RetransmitKeeps(o: Options, s: Send, count: nat)
    requires ValidOptions(o) && Accounted(o, s)
    ensures Accounted(o, RetransmitMany(o, s, count))
    ensures RetransmitMany(o, s, count).buffer == s.buffer
  {
    if count > 0 {
      RetransmitKeeps(o, s, count - 1);
      var w := RetransmitMany(o, s, count - 1).windowSize;
      ScaleKeepsMaximum(o, w, o.retxScaleDown);
    }
  }

  lemma ScaleKeepsMaximum(o: Options, window: uint32, factor: real)
    requires ValidOptions(o) && window <= o.maxSize && factor >= 0.0
    ensures ScaleWindow(o, window, factor) <= o.maxSize
  {
    if factor <= 1.0 {
      ScaledShrinks(window, factor);
    }
  }

  lemma ScaledShrinks(n: uint32, f: real)
    requires 0.0 <= f <= 1.0
    ensures Scaled(n, f) <= n
  {
    var a := n as real;
    NonNegative(a, f);
    NonNegative(a, 1.0 - f);
    assert a * f + a * (1.0 - f) == a;
    assert 0 <= (a * f).Floor <= n;
  }

  lemma NonNegative(a: real, b: real)
    requires a >= 0.0 && b >= 0.0
    ensures a * b >= 0.0
  {
  }

  // ---------------------------------------------------------------- the minimum

  /**
   An increase leaves the window at or above the minimum exactly when the uint32 sum does not
   wrap, or wraps far enough to end above the minimum again.
   */
  lemma IncreaseKeepsMinimum(o: Options, s: Send)
    requires ValidOptions(o) && o.minSize <= s.windowSize <= o.maxSize
    ensures var sum := s.windowSize + Scaled(s.accumulator, o.increaseScale);
            Increase(o, s).windowSize >= o.minSize
            <==> s.successfulAcks < o.increaseThresh || sum < TWO32 || sum >= TWO32 + o.minSize
  {
    var sum := s.windowSize + Scaled(s.accumulator, o.increaseScale);
    assert ToU32(sum) == if sum < TWO32 then sum else sum - TWO32;
  }

  lemma ScaleUp(window: uint32, factor: real)
    requires factor > 1.0
    ensures ((window as real) * factor).Floor >= window
  {
    var a := window as real;
    NonNegative(a, factor - 1.0);
    assert a * factor == a + a * (factor - 1.0);
  }

  /** Scaling down stops at the minimum, whatever the factor; scaling up needs a factor above one and never overshoots the maximum. */
  lemma ScaleKeepsMinimum(o: Options, window: uint32, factor: real)
    requires ValidOptions(o) && o.minSize <= window <= o.maxSize && 0.0 <= factor
    requires factor > 1.0 ==> (window as real) * factor < TWO32 as real
    ensures o.minSize <= ScaleWindow(o, window, factor) <= o.maxSize
  {
    if factor > 1.0 {
      ScaleUp(window, factor);
      SmallStays(((window as real) * factor).Floor);
    } else {
      ScaleKeepsMaximum(o, window, factor);
    }
  }

  datatype Event =
    | Admitted(p: Payload)
    | Acked(number: int)
    | Retransmitted

  function Play(o: Options, s: Send, events: seq<Event>): Send {
    if events == [] then s
    else
      var before := Play(o, s, events[..|events| - 1]);
      match events[|events| - 1]
      case Admitted(p) => Buffered(before, p)
      case Acked(number) => AckOne(o, before, number)
      case Retransmitted => RetransmitOne(o, before)
  }

  /** What an ack counts before the window may grow. */
  function Counted(s: Send, number: int): Send
    requires number in s.buffer
  {
    var n := ToU32(|s.buffer[number].data|);
    s.(buffer := s.buffer - {number}, accumulator := ToU32(s.accumulator + n),
       successfulAcks := ToU32(s.successfulAcks + 1), sendSize := ToU32(s.sendSize - n))
  }

  /** The event does not take the window below its minimum by a wrapping sum or product. */
  predicate Harmless(o: Options, s: Send, event: Event) {
    match event
    case Admitted(_) => true
    case Acked(number) =>
      number in s.buffer ==>
        var t := Counted(s, number);
        var sum := t.windowSize + Scaled(t.accumulator, o.increaseScale);
        t.successfulAcks < o.increaseThresh || sum < TWO32 || sum >= TWO32 + o.minSize
    case Retransmitted =>
      ToU32(s.retransmits + 1) < o.retxThresh || o.retxScaleDown <= 1.0 || Scaled(s.windowSize, o.retxScaleDown) >= o.minSize
  }

  function PlayOne(o: Options, s: Send, event: Event): Send {
    match event
    case Admitted(p) => Buffered(s, p)
    case Acked(number) => AckOne(o, s, number)
    case Retransmitted => RetransmitOne(o, s)
  }

  predicate InRange(o: Options, s: Send) {
    o.minSize <= s.windowSize <= o.maxSize
  }

  lemma HarmlessExactly(o: Options, s: Send, event: Event)
    requires ValidOptions(o) && InRange(o, s)
    ensures InRange(o, PlayOne(o, s, event)) <==> Harmless(o, s, event)
  {
    match event
    case Admitted(_) =>
    case Acked(number) =>
      if number in s.buffer {
        assert AckOne(o, s, number) == Increase(o, Counted(s, number));
        IncreaseKeepsMinimum(o, Counted(s, number));
      }
    case Retransmitted =>
      if o.retxScaleDown <= 1.0 {
        ScaleKeepsMaximum(o, s.windowSize, o.retxScaleDown);
      }
  }

  lemma {:induction false} PlaySnoc(o: Options, s: Send, events: seq<Event>, event: Event)
    ensures Play(o, s, events + [event]) == PlayOne(o, Play(o, s, events), event)
  {
    assert (events + [event])[..|events|] == events;
  }

  predicate InRangeAfter(o: Options, events: seq<Event>, i: nat)
    requires i <= |events|
  {
    InRange(o, Play(o, NewSend(o), events[..i]))
  }

  predicate HarmlessAt(o: Options, events: seq<Event>, i: nat)
    requires i < |events|
  {
    Harmless(o, Play(o, NewSend(o), events[..i]), events[i])
  }

  lemma OneMore(o: Options, events: seq<Event>, i: nat)
    requires ValidOptions(o) && i < |events| && InRangeAfter(o, events, i)
    ensures InRangeAfter(o, events, i + 1) <==> HarmlessAt(o, events, i)
  {
    assert events[..i + 1] == events[..i] + [events[i]];
    PlaySnoc(o, NewSend(o), events[..i], events[i]);
    HarmlessExactly(o, Play(o, NewSend(o), events[..i]), events[i]);
  }

  lemma {:induction false} HarmlessKeepsRange(o: Options, events: seq<Event>, i: nat)
    requires ValidOptions(o) && o.minSize <= o.startSize && i <= |events|
    requires forall k: nat :: k < |events| ==> HarmlessAt(o, events, k)
    ensures InRangeAfter(o, events, i)
  {
    if i == 0 {
      assert events[..0] == [];
    } else {
      HarmlessKeepsRange(o, events, i - 1);
      OneMore(o, events, i - 1);
    }
  }

  /** Over any run of admissions, acks and retransmits the window stays between minimum and maximum if and only if every event is harmless where it happens. */
  lemma WindowStaysInRange(o: Options, events: seq<Event>)
    requires ValidOptions(o) && o.minSize <= o.startSize
    ensures (forall i: nat :: i <= |events| ==> InRangeAfter(o, events, i)) <==> (forall i: nat :: i < |events| ==> HarmlessAt(o, events, i))
  {
    if forall i: nat :: i <= |events| ==> InRangeAfter(o, events, i) {
      forall i: nat | i < |events| ensures HarmlessAt(o, events, i) {
        OneMore(o, events, i);
      }
    }
    if forall i: nat :: i < |events| ==> HarmlessAt(o, events, i) {
      forall i: nat | i <= |events| ensures InRangeAfter(o, events, i) {
        HarmlessKeepsRange(o, events, i);
      }
    }
  }

  // ---------------------------------------------------------------- ordinary traffic breaks the minimum

  const DEFAULTS := Options(0x40_0000, 0x40_0000, 0x4000, 28, 1.0, 64, 0.75, 64, 1.5, 200, 0)

  /** That many payloads of 512 bytes, each buffered and acked before the next. */
  function Rounds(p: Payload, n: nat): seq<Event>
    requires n < TWO31
  {
    if n == 0 then [] else Rounds(p, n - 1) + [Admitted(p.(sequence := n))] + [Acked(n)]
  }

  /** 28 times 299301: the increase where window and accumulator first add up to 2^32 or more. */
  const MANY := 8380428

  /** Nothing outstanding, and as many bytes and acks counted as there were rounds. */
  ghost predicate After(s: Send, n: nat) {
    && s.buffer == map[] && s.sendSize == 0 && s.accumulator == 512 * n && s.successfulAcks == n % 28
    && s.windowSize == if n < MANY then 0x40_0000 else 6144
  }

  lemma WholeScale(n: uint32)
    ensures Scaled(n, 1.0) == n
  {
    assert (n as real) * 1.0 == n as real;
    SmallStays(n);
  }

  lemma CountRound(n: nat)
    requires 0 < n <= MANY
    ensures ToU32(512 * (n - 1) + 512) == 512 * n && ToU32(ToU32(512) - 512) == 0
    ensures ToU32((n - 1) % 28 + 1) == (n - 1) % 28 + 1
    ensures (n - 1) % 28 + 1 >= 28 <==> n % 28 == 0
    ensures n % 28 != 0 ==> (n - 1) % 28 + 1 == n % 28
  {
    SmallStays(512 * n);
    SmallStays((n - 1) % 28 + 1);
  }

  /** The window is capped again and again, until the sum wraps to 6144. */
  lemma GrowRound(n: nat)
    requires 0 < n <= MANY && n % 28 == 0
    ensures n < MANY ==> 0x40_0000 <= ToU32(0x40_0000 + 512 * n)
    ensures n == MANY ==> ToU32(0x40_0000 + 512 * n) == 6144
  {
    if n < MANY {
      assert n <= MANY - 28;
      SmallStays(0x40_0000 + 512 * n);
    }
  }

  lemma Round(s: Send, p: Payload, n: nat)
    requires 0 < n <= MANY && |p.data| == 512 && After(s, n - 1)
    ensures After(AckOne(DEFAULTS, Buffered(s, p.(sequence := n)), n), n)
  {
    var q := p.(sequence := n);
    var b := Buffered(s, q);
    CountRound(n);
    assert b.buffer == map[n := q] && b.buffer - {n} == map[];
    SmallStays(512);
    WholeScale(512 * n);
    if n % 28 == 0 {
      GrowRound(n);
    }
  }

  lemma {:induction false} AfterRounds(p: Payload, n: nat)
    requires |p.data| == 512 && n <= MANY
    ensures After(Play(DEFAULTS, NewSend(DEFAULTS), Rounds(p, n)), n)
  {
    if n > 0 {
      AfterRounds(p, n - 1);
      var s0, events := NewSend(DEFAULTS), Rounds(p, n - 1);
      PlaySnoc(DEFAULTS, s0, events, Admitted(p.(sequence := n)));
      PlaySnoc(DEFAULTS, s0, events + [Admitted(p.(sequence := n))], Acked(n));
      Round(Play(DEFAULTS, s0, events), p, n);
    }
  }

  /**
   Under the default options, 8380428 payloads of 512 bytes, each acked before the next and none
   retransmitted, take the window from its maximum of 4 MiB to 6144, below its minimum of 16 KiB.
   */
  lemma {:induction false} MinimumCanBreak(p: Payload)
    requires |p.data| == 512
    ensures ValidOptions(DEFAULTS)
    ensures Play(DEFAULTS, NewSend(DEFAULTS), Rounds(p, MANY)).windowSize == 6144 < DEFAULTS.minSize
  {
    AfterRounds(p, MANY);
  }

  // ---------------------------------------------------------------- how far the counters move

  predicate IsFloor(n: int, x: real) {
    n as real <= x < n as real + 1.0
  }

  lemma ScaledIsFloor(n: nat, f: real)
    requires 0.0 <= (n as real) * f < TWO32 as real
    ensures IsFloor(Scaled(n, f), (n as real) * f)
  {
    SmallStays(((n as real) * f).Floor);
  }

  /** Scaling down gives the product, rounded down, unless that is below the minimum; scaling up, unless it is above the maximum. */
  lemma ScaleWindowMeans(o: Options, window: uint32, factor: real)
    requires 0.0 <= (window as real) * factor < TWO32 as real
    ensures var r, product := ScaleWindow(o, window, factor), (window as real) * factor;
            && (factor <= 1.0 ==> r >= o.minSize && (IsFloor(r, product) || (r == o.minSize && product < r as real)))
            && (factor > 1.0 ==> r <= o.maxSize && (IsFloor(r, product) || (r == o.maxSize && product > r as real)))
  {
    ScaledIsFloor(window, factor);
  }

  /** The window is scaled at every `retxThresh`-th retransmission and not before, and what was delivered is then forgotten. */
  lemma {:induction false} RetransmissionsScale(o: Options, s: Send, count: nat)
    requires s.retransmits == 0 && 0 < count <= o.retxThresh
    ensures var t := RetransmitMany(o, s, count);
            if count < o.retxThresh then t == s.(retransmits := count)
            else t == s.(retransmits := 0, accumulator := 0, windowSize := ScaleWindow(o, s.windowSize, o.retxScaleDown))
  {
    if count > 1 {
      RetransmissionsScale(o, s, count - 1);
    } else {
      assert RetransmitMany(o, s, 0) == s;
    }
    SmallStays(count);
  }

  /** At a due increase the window grows by the delivered bytes times the scale, rounded down, up to its maximum, and the retransmit scale goes back by a hundredth, not below the configured one. */
  lemma IncreaseMeans(o: Options, s: Send)
    requires Accounted(o, s) && s.successfulAcks >= o.increaseThresh
    requires 0.0 <= (s.accumulator as real) * o.increaseScale < (TWO32 - s.windowSize) as real
    ensures var t, growth := Increase(o, s), (s.accumulator as real) * o.increaseScale;
            && t.successfulAcks == 0 && t.windowSize <= o.maxSize
            && (IsFloor(t.windowSize - s.windowSize, growth) || (t.windowSize == o.maxSize && growth > (o.maxSize - s.windowSize) as real))
            && o.retxScale <= t.retxScale <= s.retxScale && (t.retxScale == o.retxScale || t.retxScale == s.retxScale - 0.01)
  {
    ScaledIsFloor(s.accumulator, o.increaseScale);
    SmallStays(s.windowSize + Scaled(s.accumulator, o.increaseScale));
  }

  /** Every `dupAckThresh`-th duplicate ack raises the retransmit scale by a fifth, and no earlier one does. */
  lemma {:induction false} DuplicatesRaiseScale(o: Options, s: Send, numbers: seq<int>)
    requires s.duplicateAcks == 0 && 0 < |numbers| <= o.dupAckThresh && forall n :: n in numbers ==> n !in s.buffer
    ensures var t := AckAll(o, s, numbers);
            if |numbers| < o.dupAckThresh then t == s.(duplicateAcks := |numbers|)
            else t == s.(duplicateAcks := 0, retxScale := s.retxScale + 0.2)
    decreases |numbers|
  {
    var front := numbers[..|numbers| - 1];
    if front != [] {
      DuplicatesRaiseScale(o, s, front);
    } else {
      assert AckAll(o, s, front) == s;
    }
    assert numbers[|numbers| - 1] in numbers;
    SmallStays(|numbers|);
  }

  // ---------------------------------------------------------------- how much one check lets in

  /** What `run` decides after its blocked check: two payloads may come in before the next check, or none. */
  function Budget(o: Options, s: Send, closing: bool): nat {
    if IsBlocked(o, s) && !closing && s.sendSize != 0 then 0 else 2
  }

  /** Outstanding bytes and what may still come in before the next check. */
  ghost predicate Bounded(o: Options, s: Send, budget: nat, maxPayload: nat) {
    Total(s.buffer) + budget * maxPayload <= o.maxSize + 2 * maxPayload
  }

  lemma CheckKeepsBound(o: Options, s: Send, budget: nat, maxPayload: nat)
    requires Accounted(o, s) && Bounded(o, s, budget, maxPayload)
    requires o.maxSize + 2 * maxPayload < TWO32
    ensures Bounded(o, s, Budget(o, s, false), maxPayload)
  {
    assert Total(s.buffer) <= o.maxSize + 2 * maxPayload;
    assert s.sendSize == Total(s.buffer);
  }

  lemma AdmitKeepsBound(o: Options, s: Send, budget: nat, maxPayload: nat, p: Payload)
    requires Accounted(o, s) && Bounded(o, s, budget, maxPayload) && budget > 0
    requires |p.data| <= maxPayload && p.sequence as int !in s.buffer
    ensures Bounded(o, Buffered(s, p), budget - 1, maxPayload)
  {
    BufferedKeeps(o, s, p);
    assert (budget - 1) * maxPayload == budget * maxPayload - maxPayload;
  }

  // ---------------------------------------------------------------- when a payload is retransmitted

  /** What each payload carries besides its data, and when the buffer was last looked through. */
  datatype Timing = Timing(
    age: map<int, int>,          // when a payload was last sent; absent until then
    queued: map<int, int>,       // retxQueued: one while it is queued for retransmission, two more once it is acked
    lastRetransmit: int)

  const MIN_PAUSE := 64

  /** A new payload has not been sent. */
  function Entering(t: Timing, n: int): Timing {
    t.(age := t.age - {n}, queued := t.queued[n := 0])
  }

  function SentAt(t: Timing, n: int, now: int): Timing {
    t.(age := t.age[n := now])
  }

  function GivenBack(t: Timing, n: int): Timing
    requires n in t.queued
  {
    t.(queued := t.queued[n := t.queued[n] - 1])
  }

  function MarkedAcked(t: Timing, buffer: map<int, Payload>, numbers: seq<int>): Timing {
    t.(queued := map n | n in t.queued :: t.queued[n] + if n in numbers && n in buffer then 2 else 0)
  }

  /** Sent, not queued or acked, and older than the threshold. */
  predicate Eligible(s: Send, t: Timing, n: int, now: int) {
    n in s.buffer && n in t.age && n in t.queued && t.queued[n] == 0 && ToU32(now - t.age[n]) >= s.retxThreshold
  }

  lemma {:induction false} StillHeld(o: Options, s: Send, numbers: seq<int>, n: int)
    requires ValidOptions(o) && Accounted(o, s)
    ensures n in AckAll(o, s, numbers).buffer <==> n in s.buffer && n !in numbers
    ensures AckAll(o, s, numbers + [n]) == AckOne(o, AckAll(o, s, numbers), n)
  {
    AckAllKeeps(o, s, numbers);
    assert (numbers + [n])[..|numbers|] == numbers;
  }

  lemma MarkedOnce(t: Timing, buffer: map<int, Payload>, numbers: seq<int>, n: int)
    requires n in buffer ==> n in t.queued
    ensures MarkedAcked(t, buffer, numbers).queued.Keys == t.queued.Keys
    ensures var before, after := MarkedAcked(t, buffer, numbers).queued, MarkedAcked(t, buffer, numbers + [n]).queued;
            && (n in buffer && n !in numbers ==> before[n] == t.queued[n] && after == before[n := before[n] + 2])
            && (n !in buffer || n in numbers ==> after == before)
  {
  }

  predicate LooksThrough(s: Send, t: Timing, now: int) {
    s.buffer != map[] && now - t.lastRetransmit > MIN_PAUSE
  }

  /** What one call of retransmit hands to the retransmitter. */
  function Chosen(s: Send, t: Timing, now: int): set<int> {
    if LooksThrough(s, t, now) then set n | n in s.buffer && Eligible(s, t, n, now) else {}
  }

  function LookedThrough(s: Send, t: Timing, now: int): Timing {
    if LooksThrough(s, t, now)
    then Timing(t.age, map n | n in t.queued :: t.queued[n] + if n in Chosen(s, t, now) then 1 else 0, now)
    else t
  }

  lemma ChosenMarked(s: Send, t: Timing, now: int, list: seq<int>, queued: map<int, int>)
    requires LooksThrough(s, t, now) && queued.Keys == t.queued.Keys
    requires forall k :: k in list <==> Eligible(s, t, k, now)
    requires forall k :: k in queued ==> queued[k] == t.queued[k] + if k in list then 1 else 0
    ensures (forall k :: k in list <==> k in Chosen(s, t, now)) && queued == LookedThrough(s, t, now).queued
  {
    var marked := LookedThrough(s, t, now).queued;
    assert forall k :: k in list <==> k in Chosen(s, t, now);
    forall k | k in queued ensures k in marked && marked[k] == queued[k] {
      assert k in list <==> k in Chosen(s, t, now);
    }
    assert marked.Keys == queued.Keys;
  }

  // ---------------------------------------------------------------- the buffer itself

  class LinkSendBuffer {
    const options: Options
    var buffer: map<int, Payload>
    var age: map<int, int>           // when a payload was last sent; absent until then
    var queued: map<int, int>        // retxQueued of each payload
    var windowSize: uint32
    var linkSendBufferSize: uint32
    var linkRecvBufferSize: uint32
    var accumulator: uint32
    var successfulAcks: uint32
    var duplicateAcks: uint32
    var retransmits: uint32
    var retxScale: real
    var retxThreshold: uint32
    var lastRtt: uint16
    var lastRetransmitTime: int
    var closeWhenEmpty: bool

    ghost function State(): Send
      reads this
    {
      Send(buffer, windowSize, linkSendBufferSize, linkRecvBufferSize, accumulator, successfulAcks,
           duplicateAcks, retransmits, retxScale, retxThreshold, lastRtt)
    }

    ghost function Times(): Timing
      reads this
    {
      Timing(age, queued, lastRetransmitTime)
    }

    constructor (options: Options)
      requires ValidOptions(options)
      ensures this.options == options && State() == NewSend(options) && Accounted(options, State())
      ensures !closeWhenEmpty && Times() == Timing(map[], map[], 0)
    {
      this.options := options;
      buffer, age, queued := map[], map[], map[];
      windowSize, retxScale, retxThreshold := options.startSize, options.retxScale, options.retxStartMs;
      linkSendBufferSize, linkRecvBufferSize, accumulator := 0, 0, 0;
      successfulAcks, duplicateAcks, retransmits, lastRtt, lastRetransmitTime := 0, 0, 0, 0, 0;
      closeWhenEmpty := false;
    }

    /** The blocked check at the top of the loop: may payloads come in before the next one? */
    method MayAdmit() returns (open: bool)
      ensures open <==> Budget(options, State(), closeWhenEmpty) == 2
      ensures open <==> closeWhenEmpty || linkSendBufferSize == 0
                        || (linkRecvBufferSize <= options.maxSize && linkSendBufferSize <= windowSize)
    {
      var blocked := options.maxSize < linkRecvBufferSize;
      if windowSize < linkSendBufferSize {
        blocked := true;
      }
      open := !(blocked && !closeWhenEmpty && linkSendBufferSize != 0);
    }

    method Admit(p: Payload)
      requires Accounted(options, State()) && p.sequence as int !in buffer
      modifies this`buffer, this`linkSendBufferSize, this`queued, this`age
      ensures State() == Buffered(old(State()), p) && Accounted(options, State())
      ensures Times() == Entering(old(Times()), p.sequence)
    {
      BufferedKeeps(options, State(), p);
      buffer := buffer[p.sequence as int := p];
      queued, age := queued[p.sequence as int := 0], age - {p.sequence as int};
      linkSendBufferSize := ToU32(linkSendBufferSize + |p.data|);
    }

    /** The callback of BufferPayload, and what the retransmitter does after it forwarded a payload. */
    method MarkSent(n: int, now: int)
      modifies this`age
      ensures Times() == SentAt(old(Times()), n, now)
    {
      age := age[n := now];
    }

    method Dequeued(n: int)
      requires n in queued
      modifies this`queued
      ensures Times() == GivenBack(old(Times()), n)
    {
      queued := queued[n := queued[n] - 1];
    }

    /** One acked number. True when the payload was queued for retransmission, so its removal goes to the retransmitter. */
    method AckNumber(number: int) returns (removal: bool)
      requires number in buffer ==> number in queued
      modifies this
      ensures State() == AckOne(options, old(State()), number)
      ensures removal <==> number in old(buffer) && old(queued)[number] > 0
      ensures queued == if number in old(buffer) then old(queued)[number := old(queued)[number] + 2] else old(queued)
      ensures age == old(age) && closeWhenEmpty == old(closeWhenEmpty) && lastRetransmitTime == old(lastRetransmitTime)
    {
      if number in buffer {
        queued := queued[number := queued[number] + 2];
        removal := queued[number] > 2;
        var payloadSize := ToU32(|buffer[number].data|);
        accumulator := ToU32(accumulator + payloadSize);
        successfulAcks := ToU32(successfulAcks + 1);
        buffer := buffer - {number};
        linkSendBufferSize := ToU32(linkSendBufferSize - payloadSize);
        IncreaseWindow();
      } else {
        removal := false;
        CountDuplicate();
      }
    }

    method IncreaseWindow()
      modifies this`successfulAcks, this`windowSize, this`retxScale
      ensures State() == Increase(options, old(State()))
    {
      if successfulAcks >= options.increaseThresh {
        successfulAcks := 0;
        windowSize := ToU32(windowSize + Scaled(accumulator, options.increaseScale));
        if windowSize > options.maxSize {
          windowSize := options.maxSize;
        }
        retxScale := retxScale - 0.01;
        if retxScale < options.retxScale {
          retxScale := options.retxScale;
        }
      }
    }

    method CountDuplicate()
      modifies this`duplicateAcks, this`retxScale
      ensures State() == Duplicate(options, old(State()))
    {
      duplicateAcks := ToU32(duplicateAcks + 1);
      if duplicateAcks >= options.dupAckThresh {
        duplicateAcks := 0;
        retxScale := retxScale + 0.2;
      }
    }

    method AckNumbers(numbers: seq<int>) returns (removals: seq<int>)
      requires ValidOptions(options) && Accounted(options, State())
      requires forall k :: k in buffer ==> k in queued
      modifies this
      ensures State() == AckAll(options, old(State()), numbers)
      ensures Times() == MarkedAcked(old(Times()), old(buffer), numbers) && closeWhenEmpty == old(closeWhenEmpty)
      ensures forall k :: k in removals <==> k in numbers && k in old(buffer) && old(queued)[k] > 0
    {
      removals := [];
      ghost var before, times := State(), Times();
      var i := 0;
      while i < |numbers|
        invariant 0 <= i <= |numbers|
        invariant State() == AckAll(options, before, numbers[..i])
        invariant queued == MarkedAcked(times, before.buffer, numbers[..i]).queued
        invariant forall k :: k in removals <==> k in numbers[..i] && k in before.buffer && times.queued[k] > 0
        invariant age == old(age) && closeWhenEmpty == old(closeWhenEmpty) && lastRetransmitTime == old(lastRetransmitTime)
      {
        assert numbers[..i + 1] == numbers[..i] + [numbers[i]];
        StillHeld(options, before, numbers[..i], numbers[i]);
        MarkedOnce(times, before.buffer, numbers[..i], numbers[i]);
        var removal := AckNumber(numbers[i]);
        if removal {
          removals := removals + [numbers[i]];
        }
        i := i + 1;
      }
      assert numbers[..i] == numbers;
      assert queued == MarkedAcked(times, before.buffer, numbers).queued;
    }

    method TakeStamp(stamp: uint16, now: nat)
      modifies this`lastRtt, this`retxThreshold
      ensures State() == TakeRtt(options, old(State()), stamp, now)
    {
      if stamp > 0 {
        var rtt := RttSample(now, stamp);
        if lastRtt > 0 {
          rtt := ToU16(rtt + lastRtt) / 2;
        }
        lastRtt := rtt;
        retxThreshold := ToU32(Scaled(rtt, retxScale) + options.retxAddMs);
      }
    }

    /** All acks of one message, then the receiver's size and the round trip. */
    method ReceiveAcknowledgement(ack: Ack, now: nat) returns (removals: seq<int>)
      requires ValidOptions(options) && Accounted(options, State())
      requires forall k :: k in buffer ==> k in queued
      modifies this
      ensures State() == ReceiveAck(options, old(State()), ack, now) && Accounted(options, State())
      ensures Times() == MarkedAcked(old(Times()), old(buffer), ack.sequence)
      ensures forall k :: k in removals <==> k in ack.sequence && k in old(buffer) && old(queued)[k] > 0
    {
      AckKeeps(options, State(), ack, now);
      removals := AckNumbers(ack.sequence);
      linkRecvBufferSize := ack.recvBufferSize;
      TakeStamp(ack.rtt, now);
    }

    /** The payloads due for retransmission, in sequence order. */
    method SelectRetransmits(now: int) returns (list: seq<int>)
      ensures Ascending(list)
      ensures forall k :: k in list <==> Eligible(State(), Times(), k, now)
    {
      list := [];
      var keys := buffer.Keys;
      while keys != {}
        invariant keys <= buffer.Keys && Ascending(list)
        invariant forall k :: k in list <==> k !in keys && Eligible(State(), Times(), k, now)
        decreases |keys|
      {
        HasMember(keys);
        var k :| k in keys;
        keys := keys - {k};
        if k in age && k in queued && queued[k] == 0 && ToU32(now - age[k]) >= retxThreshold {
          InsertSortedIs(list, k);
          list := InsertSorted(list, k);
        }
      }
    }

    /** Everything due is marked queued and handed to the retransmitter, in sequence order, exactly once. */
    method Retransmit(now: int) returns (list: seq<int>)
      requires ValidOptions(options) && Accounted(options, State())
      modifies this
      ensures State() == RetransmitMany(options, old(State()), |list|) && Accounted(options, State())
      ensures Ascending(list) && forall k :: k in list <==> k in Chosen(old(State()), old(Times()), now)
      ensures |list| == |Chosen(old(State()), old(Times()), now)|
      ensures Times() == LookedThrough(old(State()), old(Times()), now)
    {
      list := [];
      if buffer == map[] || now - lastRetransmitTime <= MIN_PAUSE {
        return;
      }
      list := SelectRetransmits(now);
      ghost var before := State();
      var i := 0;
      while i < |list|
        invariant 0 <= i <= |list|
        invariant State() == RetransmitMany(options, before, i)
        invariant queued.Keys == old(queued).Keys && age == old(age)
        invariant forall k :: k in queued ==> queued[k] == old(queued)[k] + if k in list[..i] then 1 else 0
      {
        assert list[..i + 1] == list[..i] + [list[i]];
        assert list[i] in list && Eligible(old(State()), old(Times()), list[i], now);
        assert list[i] !in list[..i];
        queued := queued[list[i] := queued[list[i]] + 1];
        CountRetransmit();
        i := i + 1;
      }
      assert list[..i] == list;
      RetransmitKeeps(options, before, |list|);
      lastRetransmitTime := now;
      ChosenMarked(old(State()), old(Times()), now, list, queued);
      AscendingCount(list, Chosen(old(State()), old(Times()), now));
    }

    method CountRetransmit()
      modifies this`retransmits, this`accumulator, this`windowSize
      ensures State() == RetransmitOne(options, old(State()))
    {
      retransmits := ToU32(retransmits + 1);
      if retransmits >= options.retxThresh {
        accumulator, retransmits := 0, 0;
        ScaleTo(options.retxScaleDown);
      }
    }

    method ScaleTo(factor: real)
      modifies this`windowSize
      ensures windowSize == ScaleWindow(options, old(windowSize), factor)
    {
      windowSize := Scaled(windowSize, factor);
      if factor > 1.0 {
        if windowSize > options.maxSize {
          windowSize := options.maxSize;
        }
      } else if windowSize < options.minSize {
        windowSize := options.minSize;
      }
    }
  }

  predicate Ascending(s: seq<int>) {
    forall i, j :: 0 <= i < j < |s| ==> s[i] < s[j]
  }

  lemma {:induction false} AscendingCount(list: seq<int>, s: set<int>)
    requires Ascending(list) && forall k :: k in list <==> k in s
    ensures |list| == |s|
    decreases |list|
  {
    HasMember(s);
    if list == [] {
      assert forall k :: k in s <==> k in list;
    } else {
      var front, last := list[..|list| - 1], list[|list| - 1];
      assert list == front + [last];
      assert forall k :: k in front <==> k in s - {last};
      AscendingCount(front, s - {last});
    }
  }

  function InsertSorted(s: seq<int>, k: int): seq<int> {
    if s == [] then [k] else if k < s[0] then [k] + s else [s[0]] + InsertSorted(s[1..], k)
  }

  lemma {:induction false} InsertSortedMembers(s: seq<int>, k: int)
    ensures forall j :: j in InsertSorted(s, k) <==> j in s || j == k
  {
    if s != [] && k >= s[0] {
      InsertSortedMembers(s[1..], k);
      assert forall j :: j in s <==> j == s[0] || j in s[1..];
    }
  }

  lemma ConsAscends(x: int, t: seq<int>)
    requires Ascending(t) && forall j :: j in t ==> x < j
    ensures Ascending([x] + t)
  {
    assert forall i :: 0 <= i < |t| ==> t[i] in t;
  }

  lemma {:induction false} InsertSortedIs(s: seq<int>, k: int)
    requires Ascending(s) && k !in s
    ensures Ascending(InsertSorted(s, k))
    ensures forall j :: j in InsertSorted(s, k) <==> j in s || j == k
  {
    InsertSortedMembers(s, k);
    if s != [] && k > s[0] {
      InsertSortedIs(s[1..], k);
      ConsAscends(s[0], InsertSorted(s[1..], k));
    }
  }

}
