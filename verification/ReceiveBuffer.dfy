/**
 The receive side of a circuit: payloads arrive in any order and any number of times, wait
 in a tree keyed by sequence number, and move one at a time, in order, into a bounded queue.
 The B-tree is a map; its leftmost entry is the one with the smallest key.
 */
module ReceiveBuffer {
  import opened Bytes
  import opened Messages
  import opened Weights

  datatype Recv = Recv(
    tree: map<int, Payload>,
    sequence: int,          // last number moved into the queue
    maxSequence: int,       // highest number ever accepted
    size: uint32,
    queue: seq<Payload>,
    capacity: nat)

  function NewRecv(capacity: nat): Recv {
    Recv(map[], -1, 0, 0, [], capacity)
  }

  /** Everything in the tree is still ahead of the queue and not beyond the highest number accepted. */
  ghost predicate Ordered(r: Recv) {
    && -1 <= r.sequence <= r.maxSequence && 0 <= r.maxSequence
    && forall k :: k in r.tree ==> r.sequence < k <= r.maxSequence && r.tree[k].sequence == k
  }

  ghost predicate Accepted(r: Recv, number: int) {
    number <= r.sequence || number in r.tree
  }

  function QueueNext(r: Recv): Recv {
    var next := r.sequence + 1;
    if next in r.tree && |r.queue| < r.capacity
    then r.(queue := r.queue + [r.tree[next]], tree := r.tree - {next}, sequence := next)
    else r
  }

  predicate Refuses(r: Recv, number: int, maxSize: uint32) {
    number > r.sequence && r.size > maxSize && number > r.maxSequence
  }

  function Insert(r: Recv, p: Payload): Recv {
    if p.sequence in r.tree then r.(tree := r.tree[p.sequence := p])
    else r.(tree := r.tree[p.sequence := p], size := ToU32(r.size + |p.data|),
            maxSequence := if p.sequence > r.maxSequence then p.sequence else r.maxSequence)
  }

  /** The new buffer; a payload is acknowledged exactly when it is not refused. */
  function ReceiveUnordered(r: Recv, p: Payload, maxSize: uint32): Recv {
    if p.sequence <= r.sequence || Refuses(r, p.sequence, maxSize) then r
    else QueueNext(Insert(r, p))
  }

  ghost function Held(r: Recv): nat {
    Total(r.tree) + QueueBytes(r.queue)
  }

  // ---------------------------------------------------------------- properties of one operation

  lemma QueueNextKeeps(r: Recv)
    requires Ordered(r)
    ensures Ordered(QueueNext(r))
    ensures forall n :: Accepted(QueueNext(r), n) <==> Accepted(r, n)
    ensures Held(QueueNext(r)) == Held(r)
    ensures r.capacity >= 1 && QueueNext(r).queue == [] ==> QueueNext(r).sequence + 1 !in QueueNext(r).tree
  {
    var next := r.sequence + 1;
    if next in r.tree && |r.queue| < r.capacity {
      TotalRemove(r.tree, next);
      QueueBytesSnoc(r.queue, r.tree[next]);
    }
  }

  lemma InsertKeeps(r: Recv, p: Payload, hand: nat)
    requires Ordered(r) && p.sequence > r.sequence
    requires p.sequence in r.tree ==> |r.tree[p.sequence].data| == |p.data|
    requires r.size == ToU32(Held(r) + hand)
    ensures Ordered(Insert(r, p))
    ensures forall n :: Accepted(Insert(r, p), n) <==> Accepted(r, n) || n == p.sequence
    ensures Insert(r, p).size == ToU32(Held(Insert(r, p)) + hand)
    ensures Held(Insert(r, p)) == Held(r) + if p.sequence in r.tree then 0 else |p.data|
  {
    var k := p.sequence;
    if k in r.tree {
      TotalRemove(r.tree, k);
      TotalRemove(r.tree[k := p], k);
      assert r.tree[k := p] - {k} == r.tree - {k};
    } else {
      TotalInsert(r.tree, k, p);
      AddSize(Held(r) + hand, |p.data|);
    }
  }

  /**
   Receiving: order is kept, exactly the numbers accepted before and the new one are accepted
   unless it was refused, and the size counter grows by exactly the bytes that were added.
   */
  lemma ReceiveKeeps(r: Recv, p: Payload, maxSize: uint32, hand: nat)
    requires Ordered(r)
    requires p.sequence in r.tree ==> |r.tree[p.sequence].data| == |p.data|
    requires r.size == ToU32(Held(r) + hand)
    ensures var after := ReceiveUnordered(r, p, maxSize);
            && Ordered(after) && after.size == ToU32(Held(after) + hand)
            && Held(after) == Held(r) + (if Accepted(r, p.sequence) || Refuses(r, p.sequence, maxSize) then 0 else |p.data|)
            && forall n :: Accepted(after, n) <==> Accepted(r, n) || (n == p.sequence && !Refuses(r, n, maxSize))
  {
    if !(p.sequence <= r.sequence || Refuses(r, p.sequence, maxSize)) {
      InsertKeeps(r, p, hand);
      QueueNextKeeps(Insert(r, p));
    }
  }

  /** Refusing the very payload the queue waits for is only possible when nothing else waits either. */
  lemma RefusalMeansEmptyTree(r: Recv, maxSize: uint32)
    requires Ordered(r) && Refuses(r, r.sequence + 1, maxSize)
    ensures r.tree == map[]
  {
    assert forall k :: k !in r.tree;
  }

  // ---------------------------------------------------------------- the buffer itself

  lemma {:induction false} HasMinimum(s: set<int>) returns (k: int)
    requires s != {}
    ensures k in s && forall j :: j in s ==> k <= j
    decreases |s|
  {
    HasMember(s);
    var x :| x in s;
    if s == {x} {
      k := x;
    } else {
      assert s - {x} != {};
      var y := HasMinimum(s - {x});
      k := if x <= y then x else y;
      assert forall j :: j in s ==> j == x || j in s - {x};
    }
  }

  class LinkReceiveBuffer {
    var tree: map<int, Payload>
    var sequence: int
    var maxSequence: int
    var size: uint32
    var txQueue: seq<Payload>
    const capacity: nat

    ghost function State(): Recv
      reads this
    {
      Recv(tree, sequence, maxSequence, size, txQueue, capacity)
    }

    constructor (txQueueSize: nat)
      ensures State() == NewRecv(txQueueSize) && Ordered(State())
    {
      tree, sequence, maxSequence, size, txQueue := map[], -1, 0, 0, [];
      capacity := txQueueSize;
    }

    /** LeftValue of the tree, if there is one. */
    method Leftmost() returns (k: int)
      requires tree != map[]
      ensures k in tree && forall j :: j in tree ==> k <= j
    {
      ghost var least := HasMinimum(tree.Keys);
      assert least in tree && forall j :: j in tree ==> least <= j;
      k :| k in tree && forall j :: j in tree ==> k <= j;
    }

    /** Looks only at the leftmost entry, which is enough because everything is ahead of `sequence`. */
    method QueueNextInOrder()
      requires Ordered(State())
      modifies this
      ensures State() == QueueNext(old(State())) && Ordered(State())
    {
      QueueNextKeeps(State());
      if tree != map[] {
        var k := Leftmost();
        if tree[k].sequence == sequence + 1 {
          if |txQueue| < capacity {
            txQueue := txQueue + [tree[k]];
            tree := tree - {k};
            sequence := k;
          }
        }
      }
    }

    method Receive(p: Payload, maxSize: uint32) returns (acknowledge: bool)
      requires Ordered(State())
      modifies this
      ensures State() == ReceiveUnordered(old(State()), p, maxSize) && Ordered(State())
      ensures acknowledge <==> Accepted(State(), p.sequence)
    {
      if p.sequence <= sequence {
        return true;
      }
      if size > maxSize && p.sequence > maxSequence {
        return false;
      }
      ghost var inserted := Insert(State(), p);
      var grows := p.sequence !in tree;
      tree := tree[p.sequence := p];
      if grows {
        size := ToU32(size + |p.data|);
        if p.sequence > maxSequence {
          maxSequence := p.sequence;
        }
      }
      assert State() == inserted;
      assert Accepted(inserted, p.sequence);
      QueueNextKeeps(inserted);
      QueueNextInOrder();
      return true;
    }

    /**
     NextPayload by a lone consumer: None means it would block (open) or return nil (closed).
     It never does either while the next payload in order is available, given a queue slot.
     */
    method Next(closed: bool) returns (p: Option<Payload>)
      requires Ordered(State())
      modifies this
      ensures Ordered(State())
      ensures var before := old(State());
              var primed := if before.queue == [] then QueueNext(before) else before;
              && p == (if primed.queue == [] then None else Some(primed.queue[0]))
              && State() == primed.(queue := if primed.queue == [] then [] else primed.queue[1..])
      ensures capacity >= 1 ==> (p == None <==> old(txQueue) == [] && old(sequence) + 1 !in old(tree))
    {
      if txQueue != [] {
        p, txQueue := Some(txQueue[0]), txQueue[1..];
        return;
      }
      QueueNextInOrder();
      if txQueue != [] {
        p, txQueue := Some(txQueue[0]), txQueue[1..];
      } else {
        p := None;
      }
    }
  }
}
