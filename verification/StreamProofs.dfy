/** The writer's side of the circuit invariant: what replaying the log would deliver. */
module StreamProofs {
  import opened Bytes
  import opened Circuit
  import opened Messages
  import opened Segmentation
  import opened WritePath

  lemma WholeLog(w: Writer)
    ensures w.log[..|w.log|] == w.log
  {
  }

  lemma PrefixOfPrefix(a: seq<Delivery>, b: seq<Delivery>, c: seq<Delivery>)
    requires a <= b <= c
    ensures a <= c
  {
  }

  lemma OldPrefix(w: Writer, v: Writer, p: Payload, k: nat)
    requires v.log == w.log + [p] && k <= |w.log| && PrefixedAt(w, k) && Limit(w, k) <= Limit(v, k)
    ensures PrefixedAt(v, k)
  {
    assert v.log[..k] == w.log[..k];
    PrefixOfPrefix(DataOf(Replay(w.log[..k]).out), Limit(w, k), Limit(v, k));
  }

  lemma GrowPrefixedAt(w: Writer, v: Writer, p: Payload, k: nat)
    requires v.log == w.log + [p] && k <= |v.log| && (k <= |w.log| ==> PrefixedAt(w, k) && Limit(w, k) <= Limit(v, k))
    requires k == |v.log| ==> DataOf(Replay(v.log).out) <= Limit(v, k)
    ensures PrefixedAt(v, k)
  {
    if k <= |w.log| {
      OldPrefix(w, v, p, k);
    } else {
      WholeLog(v);
    }
  }

  /** One more number: old prefixes keep their limits, and only the full log is new. */
  lemma GrowPrefixed(w: Writer, v: Writer, p: Payload)
    requires Prefixed(w) && v.log == w.log + [p] && w.burned <= v.burned
    requires forall k: nat :: k <= |w.log| ==> Limit(w, k) <= Limit(v, k)
    requires Unburned(v.burned, |v.log|) ==> DataOf(Replay(v.log).out) <= Limit(v, |v.log|)
    ensures Prefixed(v)
  {
    forall k: nat | k <= |v.log| && Unburned(v.burned, k) ensures PrefixedAt(v, k) {
      GrowPrefixedAt(w, v, p, k);
    }
  }

  lemma GrowReleasing(w: Writer, v: Writer, p: Payload)
    requires Releasing(w.log, w.burned) && v.log == w.log + [p] && w.burned <= v.burned
    requires Unburned(v.burned, |v.log|) ==> FullRelease(v.log, |w.log|)
    ensures Releasing(v.log, v.burned)
  {
    forall k: nat | k < |v.log| && Unburned(v.burned, k + 1) ensures FullRelease(v.log, k) {
      if k < |w.log| {
        assert v.log[..k] == w.log[..k];
        assert Unburned(w.burned, k + 1);
        assert FullRelease(w.log, k);
      }
    }
  }

  /** Numbers below the length of the log: with none of them burned, none is. */
  ghost predicate BurnedBelow(w: Writer) {
    forall n :: n in w.burned ==> n < |w.log|
  }

  lemma NoneBurned(w: Writer)
    requires BurnedBelow(w) && Unburned(w.burned, |w.log|)
    ensures w.burned == {}
  {
    assert forall n :: n !in w.burned;
  }

  lemma BeginKeepsStream(c: Config, w: Writer, m: Write)
    requires StreamInv(c, w) && w.writing.None? && w.current.None? && ValidWrite(m) && Pending(c.endpoint, Begin(m))
    ensures StreamInv(c, BeginWriting(w, m))
  {
    var v := BeginWriting(w, m);
    assert AllButLast(v.written) == w.written;
    assert forall k: nat :: Limit(v, k) == Limit(w, k);
    BeginTracks(c.endpoint, m);
  }

  /** What one chunk does to the assembly, seen from the mirror: the message goes on, ... */
  lemma MirrorsMore(e: Endpoint, w: Writer, r: Consumer, t: Consumer, p: Payload, next: Writing)
    requires w.writing.Some? && Mirrors(e, w, r) && next.headers == w.writing.value.headers
    requires Tracks(e, t.assembly, next, w.written[|w.written| - 1].data) && Pending(e, next) && t.out == r.out
    ensures Mirrors(e, TakeChunk(e, w, p, next), t) && DataOf(t.out) == AllButLast(w.written)
  {
  }

  /** ... or is complete. */
  lemma MirrorsDone(e: Endpoint, w: Writer, r: Consumer, t: Consumer, p: Payload, next: Writing)
    requires w.writing.Some? && Mirrors(e, w, r) && next.headers == w.writing.value.headers
    requires t.assembly.Idle? && !Pending(e, next)
    requires t.out == r.out + [DataMessage(w.written[|w.written| - 1].data, next.headers)]
    ensures Mirrors(e, TakeChunk(e, w, p, next), t) && DataOf(t.out) == w.written
  {
    var last := w.written[|w.written| - 1];
    SnocData(r.out, DataMessage(last.data, next.headers));
    assert w.written == AllButLast(w.written) + [last];
  }

  /** All that one cut does to a txer that has the message so far, without how it is cut. */
  ghost predicate Absorbs(e: Endpoint, w: Writing, r: Consumer, buffer: seq<uint8>, p: Payload, next: Writing) {
    var t := Consume(r, p);
    && !t.stopped && Tracks(e, t.assembly, next, buffer) && next.headers == w.headers
    && t.out == (if Pending(e, next) then r.out else r.out + [DataMessage(buffer, next.headers)])
    && TxStep(r.assembly, p).released == |p.data|
  }

  lemma CutIsAbsorbed(e: Endpoint, w: Writing, n: nat, r: Consumer, buffer: seq<uint8>, p: Payload, next: Writing)
    requires Tracks(e, r.assembly, w, buffer) && Pending(e, w) && !r.stopped && n < TWO31
    requires NextPayload(e, w, n) == Cut(p, next)
    ensures Absorbs(e, w, r, buffer, p, next)
  {
    ChunkTracks(e, w, n, r, buffer);
    NextKeepsHeaders(e, w, n);
    CutReleases(e, w, n, r.assembly, buffer);
  }

  /** What consuming the chunk does to a txer that mirrors the writer. */
  lemma AbsorbedMirrors(e: Endpoint, w: Writer, r: Consumer, p: Payload, next: Writing)
    requires w.writing.Some? && Mirrors(e, w, r)
    requires Absorbs(e, w.writing.value, r, w.written[|w.written| - 1].data, p, next)
    ensures var v := TakeChunk(e, w, p, next);
            var t := Consume(r, p);
            Mirrors(e, v, t) && DataOf(t.out) == (if v.writing.Some? then AllButLast(w.written) else w.written)
  {
    var t := Consume(r, p);
    if Pending(e, next) {
      MirrorsMore(e, w, r, t, p, next);
    } else {
      MirrorsDone(e, w, r, t, p, next);
    }
  }

  lemma NextKeepsHeaders(e: Endpoint, w: Writing, n: nat)
    requires ValidWriting(w) && n < TWO31 && NextPayload(e, w, n).Cut?
    ensures NextPayload(e, w, n).next.headers == w.headers
  {
  }

  /** No message the writer cuts is complete in a chunk-flagged first chunk, so the txer gives back every byte. */
  lemma CutReleases(e: Endpoint, w: Writing, n: nat, a: Assembly, buffer: seq<uint8>)
    requires n < TWO31 && Tracks(e, a, w, buffer) && Pending(e, w) && NextPayload(e, w, n).Cut?
    ensures var p := NextPayload(e, w, n).payload;
            TxStep(a, p).released == |p.data|
  {
    var cut := NextPayload(e, w, n);
    if w.first && e.mtu > 0 && cut.payload.flags.chunk {
      FirstCut(e, w, n);
      OpeningChunk(cut.payload, buffer, |buffer| - |cut.next.rest|);
    }
  }

  lemma StoppedConsumes(r: Consumer, p: Payload)
    requires r.stopped
    ensures Consume(r, p) == r
  {
  }

  /** What the new number must do for the stream to go on, as long as none is burned. */
  ghost predicate Continues(c: Config, w: Writer, v: Writer, p: Payload) {
    var r := Replay(w.log);
    var t := Consume(r, p);
    && DataOf(t.out) <= Limit(v, |v.log|)
    && (r.stopped || TxStep(r.assembly, p).released == |p.data|)
    && (!t.stopped ==> Mirrors(c.endpoint, v, t))
  }

  lemma GrowStream(c: Config, w: Writer, v: Writer, p: Payload)
    requires StreamInv(c, w) && BurnedBelow(v) && v.log == w.log + [p] && w.burned <= v.burned
    requires forall k: nat :: k <= |w.log| ==> Limit(w, k) <= Limit(v, k)
    requires v.burned == {} ==> Continues(c, w, v, p)
    ensures StreamInv(c, v)
  {
    ReplaySnoc(w.log, p);
    assert v.log[..|w.log|] == w.log;
    if Unburned(v.burned, |v.log|) {
      NoneBurned(v);
    }
    GrowPrefixed(w, v, p);
    GrowReleasing(w, v, p);
  }

  lemma StoppedContinues(c: Config, w: Writer, p: Payload, next: Writing)
    requires Prefixed(w) && w.burned == {} && w.writing.Some? && Replay(w.log).stopped
    ensures Continues(c, w, TakeChunk(c.endpoint, w, p, next), p)
  {
    WholeLog(w);
    StoppedConsumes(Replay(w.log), p);
    assert PrefixedAt(w, |w.log|);
    CutLimits(c, w, p, next, |w.log|);
    FullLimit(c, w, p, next);
  }

  /** Of the whole log, all but an unfinished message may be out. */
  lemma FullLimit(c: Config, w: Writer, p: Payload, next: Writing)
    requires w.writing.Some?
    ensures var v := TakeChunk(c.endpoint, w, p, next);
            && Limit(v, |v.log|) == (if v.writing.Some? then AllButLast(w.written) else w.written)
            && Limit(v, |w.log|) <= Limit(v, |v.log|)
  {
  }

  lemma AbsorbedContinues(c: Config, w: Writer, p: Payload, next: Writing)
    requires Mirrored(c, w) && w.burned == {} && w.writing.Some? && !Replay(w.log).stopped
    requires Absorbs(c.endpoint, w.writing.value, Replay(w.log), w.written[|w.written| - 1].data, p, next)
    ensures Continues(c, w, TakeChunk(c.endpoint, w, p, next), p)
  {
    AbsorbedMirrors(c.endpoint, w, Replay(w.log), p, next);
    FullLimit(c, w, p, next);
  }

  lemma CutContinues(c: Config, w: Writer, p: Payload, next: Writing)
    requires StreamInv(c, w) && w.burned == {}
    requires MayCut(w) && NextPayload(c.endpoint, w.writing.value, |w.log|) == Cut(p, next)
    ensures Continues(c, w, TakeChunk(c.endpoint, w, p, next), p)
  {
    if Replay(w.log).stopped {
      StoppedContinues(c, w, p, next);
    } else {
      CutIsAbsorbed(c.endpoint, w.writing.value, |w.log|, Replay(w.log), w.written[|w.written| - 1].data, p, next);
      AbsorbedContinues(c, w, p, next);
    }
  }

  lemma CutLimits(c: Config, w: Writer, p: Payload, next: Writing, k: nat)
    requires w.writing.Some? && k <= |w.log|
    ensures Limit(w, k) <= Limit(TakeChunk(c.endpoint, w, p, next), k)
  {
  }

  lemma CutKeepsStream(c: Config, w: Writer, p: Payload, next: Writing)
    requires StreamInv(c, w) && BurnedBelow(w)
    requires MayCut(w) && NextPayload(c.endpoint, w.writing.value, |w.log|) == Cut(p, next)
    ensures StreamInv(c, TakeChunk(c.endpoint, w, p, next))
  {
    if w.burned == {} {
      CutContinues(c, w, p, next);
    }
    forall k: nat | k <= |w.log| ensures Limit(w, k) <= Limit(TakeChunk(c.endpoint, w, p, next), k) {
      CutLimits(c, w, p, next, k);
    }
    GrowStream(c, w, TakeChunk(c.endpoint, w, p, next), p);
  }

  lemma FailKeepsStream(c: Config, w: Writer, p: Payload)
    requires StreamInv(c, w) && w.writing.Some?
    ensures StreamInv(c, TakeFailing(w, p))
  {
    var v := TakeFailing(w, p);
    assert |w.log| in v.burned;
    assert !Unburned(v.burned, |v.log|);
    GrowPrefixed(w, v, p);
    GrowReleasing(w, v, p);
  }

  lemma ControlMirrors(e: Endpoint, w: Writer, v: Writer, r: Consumer, p: Payload)
    requires IsControl(p) && !r.stopped && v.written == w.written && v.writing == w.writing
    ensures var t := Consume(r, p);
            && DataOf(t.out) == DataOf(r.out)
            && (Mirrors(e, w, r) ==> Mirrors(e, v, t))
            && TxStep(r.assembly, p).released == |p.data|
  {
    ControlTracks(r, p);
  }

  /** A control payload from any goroutine, whether or not it enters the send buffer. */
  lemma ControlKeepsStream(c: Config, w: Writer, v: Writer, p: Payload)
    requires StreamInv(c, w) && BurnedBelow(w) && IsControl(p)
    requires v == w.(log := w.log + [p], offered := v.offered) && (w.current.Some? ==> w.current.value < |w.log|)
    ensures StreamInv(c, v)
  {
    var r := Replay(w.log);
    WholeLog(w);
    ReplaySnoc(w.log, p);
    assert v.log[..|w.log|] == w.log;
    assert Limit(v, |v.log|) == Limit(w, |v.log|) && Limit(w, |w.log|) <= Limit(w, |v.log|) by {
      assert AllButLast(w.written) <= w.written;
    }
    if Unburned(v.burned, |v.log|) {
      assert Unburned(w.burned, |w.log|);
      if r.stopped {
        StoppedConsumes(r, p);
      } else {
        ControlMirrors(c.endpoint, w, v, r, p);
      }
    }
    GrowPrefixed(w, v, p);
    GrowReleasing(w, v, p);
    assert v.burned == {} ==> Unburned(v.burned, |v.log|);
  }

  /** Entering the buffer and forwarding change neither the log nor what it would deliver. */
  lemma ForwardKeepsStream(c: Config, w: Writer, n: nat)
    requires StreamInv(c, w)
    ensures StreamInv(c, Forwarded(w, n)) && StreamInv(c, EnterBuffer(w, n))
  {
    assert AllButLast(w.written) <= w.written;
    var v, u := Forwarded(w, n), EnterBuffer(w, n);
    assert forall k: nat :: Limit(w, k) <= Limit(v, k) && Limit(u, k) == Limit(w, k);
  }

  lemma BurnKeepsStream(c: Config, w: Writer, n: nat)
    requires StreamInv(c, w)
    ensures StreamInv(c, BurnNumber(w, n))
  {
    var v := BurnNumber(w, n);
    assert n in v.burned;
    forall k: nat | k <= |v.log| && Unburned(v.burned, k) ensures PrefixedAt(v, k) {
      assert k <= n;
      assert Unburned(w.burned, k);
      assert Limit(w, k) <= Limit(v, k);
    }
    forall k: nat | k < |v.log| && Unburned(v.burned, k + 1) ensures FullRelease(v.log, k) {
      assert Unburned(w.burned, k + 1);
    }
  }
}
