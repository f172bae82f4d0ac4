/** Round-trip times: a 16-bit stamp goes out with a payload, comes back in the ack, and is smoothed. */
module RoundTrip {
  import opened Bytes
  import opened ChunkCodec
  import opened Messages
  import opened SendBuffer

  /** The clocks' low 16 bits are enough for any round trip shorter than 65536 ms, and for no longer one, wherever the clock wraps. */
  lemma SampleIsExact(sent: nat, now: nat)
    requires sent <= now
    ensures RttSample(now, ToU16(sent)) == now - sent <==> now - sent < TWO16
  {
    LowBits(now, sent);
    if now - sent < TWO16 {
      LowBitsOfSmall(now - sent);
    }
  }

  lemma LowBits(now: int, sent: int)
    ensures ToU16(ToU16(now) - ToU16(sent)) == ToU16(now - sent)
  {
  }

  lemma LowBitsOfSmall(x: int)
    requires 0 <= x < TWO16
    ensures ToU16(x) == x
  {
  }

  /** Stamped into the encoded chunk, decoded, copied into an ack, encoded and decoded again, the stamp still measures the true round trip. */
  lemma EchoMeasures(raw: seq<uint8>, c: Chunk, sent: nat, beat: nat, heartbeatKey: int, ack: Acknowledgement, now: nat)
    requires WellFormed(c) && |c.circuitId| <= MAX_CIRCUIT_ID && LibraryKey(heartbeatKey) && IsImage(raw, c)
    requires IncludesRtt(c.sequence) && sent <= now < sent + TWO16
    ensures |raw| >= 2 && (HasFlag(raw[0], RTT_FLAG_MASK) ==> |raw| >= 4)
    ensures var packet := UnmarshallPacketPayload(StampHeartbeat(StampRtt(raw, sent), beat), heartbeatKey);
            && packet.Packet? && UnmarshallPayload(packet.msg).Ok?
            && var echo := UnmarshallAck(MarshallAck(ack.(rtt := UnmarshallPayload(packet.msg).value.rtt)));
            echo.Ok? && RttSample(now, echo.value.rtt) == now - sent
  {
    ChunkRoundTrip(raw, c, sent, beat, heartbeatKey);
    AckRoundTrip(ack.(rtt := ToU16(sent)));
    SampleIsExact(sent, now);
  }

  // ---------------------------------------------------------------- smoothing

  predicate Between(x: int, a: int, b: int) {
    a <= x <= b || b <= x <= a
  }

  /** One smoothing step stays between its two inputs exactly when their 16-bit sum does not wrap, or when there is no earlier value. */
  lemma SmoothStaysBetween(last: uint16, sample: uint16)
    ensures Between(Smooth(last, sample), last, sample) <==> last == 0 || last + sample < TWO16
  {
    if last > 0 && last + sample >= TWO16 {
      WrapsOnce(last + sample);
      assert Smooth(last, sample) == (last + sample - TWO16) / 2;
    } else if last > 0 {
      LowBitsOfSmall(last + sample);
    }
  }

  lemma WrapsOnce(x: int)
    requires TWO16 <= x < 2 * TWO16
    ensures ToU16(x) == x - TWO16
  {
  }

  datatype Trip = Trip(sent: nat, received: nat)

  predicate Counts(t: Trip) {
    ToU16(t.sent) != 0      // a stamp of zero means none
  }

  function TripTime(t: Trip): int {
    t.received - t.sent
  }

  /** The send buffer after these round trips, first to last. */
  function After(o: Options, s: Send, trips: seq<Trip>): Send {
    if trips == [] then s
    else
      var last := trips[|trips| - 1];
      TakeRtt(o, After(o, s, trips[..|trips| - 1]), ToU16(last.sent), last.received)
  }

  lemma SmoothKeepsBounds(last: uint16, sample: uint16, low: nat, high: nat)
    requires low <= sample <= high < 0x8000 && (last == 0 || low <= last <= high)
    ensures low <= Smooth(last, sample) <= high
  {
    if last > 0 {
      LowBitsOfSmall(last + sample);
    }
  }

  /** For any true round trips below 32768 ms the smoothed value lies between the smallest and the largest of them. */
  lemma {:induction false} SmoothedStaysBetween(o: Options, trips: seq<Trip>, low: nat, high: nat)
    requires high < 0x8000
    requires forall i :: 0 <= i < |trips| && Counts(trips[i]) ==> low <= TripTime(trips[i]) <= high
    ensures (exists i :: 0 <= i < |trips| && Counts(trips[i])) ==> low <= After(o, NewSend(o), trips).lastRtt <= high
    ensures !(exists i :: 0 <= i < |trips| && Counts(trips[i])) ==> After(o, NewSend(o), trips).lastRtt == 0
    decreases |trips|
  {
    if trips != [] {
      var n := |trips| - 1;
      var t := trips[n];
      var before := After(o, NewSend(o), trips[..n]);
      assert forall i :: 0 <= i < n ==> trips[..n][i] == trips[i];
      SmoothedStaysBetween(o, trips[..n], low, high);
      if Counts(t) {
        SampleIsExact(t.sent, t.received);
        assert before.lastRtt == 0 || low <= before.lastRtt <= high;
        SmoothKeepsBounds(before.lastRtt, TripTime(t), low, high);
      } else {
        assert After(o, NewSend(o), trips) == before;
      }
    }
  }

  /** Two round trips of 32768 ms average to zero. */
  lemma {:induction false} LongTripsWrap(o: Options)
    ensures After(o, NewSend(o), [Trip(1, 32769), Trip(1, 32769)]).lastRtt == 0
  {
    var trips := [Trip(1, 32769), Trip(1, 32769)];
    assert trips[..1] == [Trip(1, 32769)];
    assert trips[..1][..0] == [];
    assert After(o, NewSend(o), trips[..1][..0]) == NewSend(o);
    assert After(o, NewSend(o), trips[..1]).lastRtt == 32768;
  }
}
