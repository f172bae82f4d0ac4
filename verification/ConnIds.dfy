/** Connection ids of a multiplexer: a wrapping 32-bit counter against the map of ids in use. */
module ConnIds {
  import opened Bytes

  /** How many increments of the wrapping counter lead from `x` to `f`. */
  function Distance(x: uint32, f: uint32): nat {
    if x <= f then f - x else f - x + TWO32
  }

  lemma NextIsNearer(x: uint32, f: uint32)
    requires x != f
    ensures Distance(ToU32(x + 1), f) == Distance(x, f) - 1
  {
    if x + 1 < TWO32 {
      SmallStays(x + 1);
    } else {
      assert ToU32(x + 1) == 0;
    }
  }

  /** From any id out of range, starting over behind the minimum is nearer to every id in range. */
  lemma ResetIsNearer(x: uint32, f: uint32, minId: uint32, maxId: uint32)
    requires minId < f < maxId && (x < minId || x >= maxId)
    ensures Distance(ToU32(minId + 1), f) < Distance(x, f)
  {
    SmallStays(minId + 1);
  }

  class ConnMux<Sink(0)> {
    var closed: bool
    var sinks: map<uint32, Sink>
    var nextId: uint32
    const minId: uint32
    const maxId: uint32

    constructor ()
      ensures sinks == map[] && nextId == 0 && minId == 0 && maxId == TWO32 / 2 - 2 && !closed
    {
      sinks, nextId, closed := map[], 0, false;
      minId, maxId := 0, TWO32 / 2 - 2;
    }

    ghost predicate Free(id: uint32)
      reads this`sinks
    {
      minId <= id < maxId && id !in sinks
    }

    /**
     With an id free behind the minimum, this ends with a free id. Moreover it is the next one: no
     free id between the last one handed out and the maximum is passed over.
     */
    method GetNextId() returns (id: uint32)
      requires exists f: uint32 :: f > minId && Free(f)
      modifies this`nextId
      ensures Free(id) && nextId == id
      ensures old(nextId) + 1 >= minId ==> forall k: uint32 :: old(nextId) < k && Free(k) ==> old(nextId) < id <= k
    {
      ghost var start := nextId;
      ghost var free: uint32 :| free > minId && Free(free);
      nextId := ToU32(nextId + 1);
      id := nextId;
      FirstCandidate(start, id);
      while true
        invariant nextId == id
        invariant start + 1 >= minId ==> NothingSkipped(start, id)
        decreases Distance(id, free)
      {
        if id in sinks {
          NextIsNearer(id, free);
          NextCandidate(start, id);
          nextId := ToU32(nextId + 1);
          id := nextId;
        } else if id < minId || id >= maxId {
          ResetIsNearer(id, free, minId, maxId);
          NoneAhead(start, id);
          nextId := minId;
          nextId := ToU32(nextId + 1);
          id := nextId;
        } else {
          return;
        }
      }
    }

    /** Either the walk is still below every free id ahead of the start, or there is none ahead. */
    ghost predicate NothingSkipped(start: uint32, id: uint32)
      reads this`sinks
    {
      forall k: uint32 :: start < k && Free(k) ==> start < id <= k
    }

    lemma FirstCandidate(start: uint32, id: uint32)
      requires id == ToU32(start + 1)
      ensures NothingSkipped(start, id)
    {
      if start + 1 < TWO32 {
        SmallStays(start + 1);
      }
    }

    lemma NextCandidate(start: uint32, id: uint32)
      requires id in sinks && (start + 1 >= minId ==> NothingSkipped(start, id))
      ensures start + 1 >= minId ==> NothingSkipped(start, ToU32(id + 1))
    {
      forall k: uint32 | start + 1 >= minId && start < k && Free(k) ensures start < ToU32(id + 1) <= k {
        assert start < id < k;
        SmallStays(id + 1);
      }
    }

    /** The walk leaves the range only when nothing ahead of the start is free. */
    lemma NoneAhead(start: uint32, id: uint32)
      requires (id < minId || id >= maxId) && (start + 1 >= minId ==> NothingSkipped(start, id))
      ensures start + 1 >= minId ==> forall k: uint32 :: start < k ==> !Free(k)
    {
    }

    /** Succeeds exactly for an open mux and an unused id, and never replaces a sink. */
    method Add(id: uint32, sink: Sink) returns (ok: bool)
      modifies this`sinks
      ensures ok <==> !closed && id !in old(sinks)
      ensures sinks == if ok then old(sinks)[id := sink] else old(sinks)
    {
      ok := !closed && id !in sinks;
      if ok {
        sinks := sinks[id := sink];
      }
    }

    method RemoveByConnId(id: uint32)
      modifies this`sinks
      ensures sinks == old(sinks) - {id}
      ensures minId <= id < maxId ==> Free(id)
    {
      sinks := sinks - {id};
    }
  }
}
