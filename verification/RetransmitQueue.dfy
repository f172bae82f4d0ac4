/**
 The retransmitter's queue: payloads linked through their own `prev` (toward the tail) and
 `next` (toward the head) fields. There is no membership flag; a payload counts as queued when
 it has a link or is the head. The queue refines a sequence without repeats.
 */
module RetransmitQueue {

  class TxPayload {
    var next: TxPayload?
    var prev: TxPayload?

    constructor ()
      ensures next == null && prev == null
    {
      next, prev := null, null;
    }
  }

  predicate Distinct<T(==)>(q: seq<T>) {
    forall i, j :: 0 <= i < j < |q| ==> q[i] != q[j]
  }

  /** The queue without `x`, in the same order. */
  function Without<T(==)>(q: seq<T>, x: T): seq<T> {
    if q == [] then [] else if q[0] == x then Without(q[1..], x) else [q[0]] + Without(q[1..], x)
  }

  lemma {:induction false} WithoutAbsent<T>(q: seq<T>, x: T)
    requires x !in q
    ensures Without(q, x) == q
  {
    if q != [] {
      WithoutAbsent(q[1..], x);
    }
  }

  lemma {:induction false} WithoutAt<T>(q: seq<T>, i: nat)
    requires Distinct(q) && i < |q|
    ensures Without(q, q[i]) == q[..i] + q[i + 1..]
  {
    if i == 0 {
      WithoutAbsent(q[1..], q[0]);
    } else {
      WithoutAt(q[1..], i - 1);
      assert q[1..][..i - 1] == q[1..i];
      assert q[1..][i..] == q[i + 1..];
      assert q[..i] == [q[0]] + q[1..i];
    }
  }

  lemma {:induction false} WithoutKeeps<T>(q: seq<T>, x: T)
    requires Distinct(q)
    ensures Distinct(Without(q, x)) && x !in Without(q, x)
    ensures forall y :: y in q && y != x <==> y in Without(q, x)
  {
    if q != [] {
      WithoutKeeps(q[1..], x);
      assert forall y :: y in q <==> y == q[0] || y in q[1..];
      var t := Without(q[1..], x);
      assert forall i :: 0 <= i < |t| ==> t[i] in t;
    }
  }

  /** One inner element is gone. */
  ghost predicate Spliced<T>(q: seq<T>, r: seq<T>) {
    && |q| > 1 && |r| == |q| - 1 && r[0] == q[0] && r[|r| - 1] == q[|q| - 1]
    && Distinct(r) && forall k :: 0 <= k < |r| ==> r[k] in q
  }

  lemma {:induction false} CutOut<T>(q: seq<T>, i: nat, r: seq<T>)
    requires Distinct(q) && i < |q| && r == q[..i] + q[i + 1..]
    ensures r == Without(q, q[i]) && Distinct(r) && q[i] !in r
    ensures forall y :: y in q && y != q[i] <==> y in r
    ensures 0 < i < |q| - 1 ==> Spliced(q, r)
  {
    WithoutAt(q, i);
    WithoutKeeps(q, q[i]);
  }

  function Pushed<T(==)>(q: seq<T>, x: T): seq<T> {
    if x in q then q else q + [x]
  }

  /** Neighbours point at each other. */
  ghost predicate Chained(q: seq<TxPayload>)
    reads q
  {
    forall i, j :: 0 <= i < j < |q| && j == i + 1 ==> q[j].next == q[i] && q[i].prev == q[j]
  }

  ghost predicate Ended(q: seq<TxPayload>)
    reads q
  {
    q != [] ==> q[0].next == null && q[|q| - 1].prev == null
  }

  ghost predicate Unlinked(known: set<TxPayload>, q: seq<TxPayload>)
    reads known
  {
    forall p :: p in known && p !in q ==> p.next == null && p.prev == null
  }

  /** Neighbours point at each other, past the element at `i`. */
  ghost predicate ChainedAround(q: seq<TxPayload>, i: int)
    requires 0 < i < |q| - 1
    reads q
  {
    && (forall a, b :: 0 <= a < b < |q| && b == a + 1 && a != i && b != i ==> q[b].next == q[a] && q[a].prev == q[b])
    && q[i + 1].next == q[i - 1] && q[i - 1].prev == q[i + 1]
  }

  lemma Rejoined(q: seq<TxPayload>, i: nat, r: seq<TxPayload>)
    requires 0 < i < |q| - 1 && r == q[..i] + q[i + 1..] && ChainedAround(q, i)
    ensures Chained(r)
  {
    forall a, b | 0 <= a < b < |r| && b == a + 1
      ensures r[b].next == r[a] && r[a].prev == r[b]
    {
      var x, y := if a < i then a else a + 1, if b < i then b else b + 1;
      assert r[a] == q[x] && r[b] == q[y];
    }
  }

  class Retransmitter {
    var retxHead: TxPayload?
    var retxTail: TxPayload?
    var retransmitsQueueSize: int
    ghost var Queue: seq<TxPayload>
    ghost var Known: set<TxPayload>     // every payload it was ever given

    /** Both links of every member agree with its place; everything else it knows is unlinked. */
    ghost predicate Valid()
      reads this, Known
    {
      && Distinct(Queue)
      && (forall i :: 0 <= i < |Queue| ==> Queue[i] in Known)
      && Chained(Queue)
      && Ended(Queue)
      && Unlinked(Known, Queue)
      && retxHead == (if Queue == [] then null else Queue[0])
      && retxTail == (if Queue == [] then null else Queue[|Queue| - 1])
      && retransmitsQueueSize == |Queue|
    }

    /** Never given to this queue before, hence without links. */
    ghost predicate Accepts(txp: TxPayload)
      reads this, txp
    {
      txp in Known || (txp.next == null && txp.prev == null)
    }

    constructor ()
      ensures Valid() && Queue == [] && Known == {}
    {
      retxHead, retxTail, retransmitsQueueSize := null, null, 0;
      Queue, Known := [], {};
    }

    /** The guard of pushTail tells exactly whether the payload is queued. */
    method IsLinked(txp: TxPayload) returns (linked: bool)
      requires Valid() && Accepts(txp)
      ensures linked <==> txp in Queue
    {
      linked := txp.prev != null || txp.next != null || txp == retxHead;
      if txp in Queue {
        ghost var i :| 0 <= i < |Queue| && Queue[i] == txp;
        assert i > 0 ==> Queue[i].next == Queue[i - 1];
      }
    }

    method PushTail(txp: TxPayload)
      requires Valid() && Accepts(txp)
      modifies this, Known`next, Known`prev, txp`next, txp`prev
      ensures Valid() && Queue == Pushed(old(Queue), txp) && Known == old(Known) + {txp}
    {
      var linked := IsLinked(txp);
      Enroll(txp);
      if !linked {
        Append(txp);
      }
    }

    ghost method Enroll(txp: TxPayload)
      requires Valid() && Accepts(txp)
      modifies this`Known
      ensures Valid() && Known == old(Known) + {txp}
    {
      Known := Known + {txp};
    }

    method Append(txp: TxPayload)
      requires Valid() && txp in Known && txp !in Queue
      modifies this, Known`next, Known`prev
      ensures Valid() && Queue == old(Queue) + [txp] && Known == old(Known)
    {
      if retxHead == null {
        retxTail, retxHead := txp, txp;
      } else {
        txp.next := retxTail;
        retxTail.prev := txp;
        retxTail := txp;
      }
      retransmitsQueueSize := retransmitsQueueSize + 1;
      Queue := Queue + [txp];
    }

    method PopHead() returns (result: TxPayload?)
      requires Valid()
      modifies this, Known`next, Known`prev
      ensures Valid() && Known == old(Known)
      ensures result == (if old(Queue) == [] then null else old(Queue)[0])
      ensures Queue == if old(Queue) == [] then [] else old(Queue)[1..]
    {
      if retxHead == null {
        return null;
      }
      result := retxHead;
      assert |Queue| > 1 ==> result.prev == Queue[1];
      if result.prev == null {
        retxHead, retxTail := null, null;
      } else {
        retxHead := result.prev;
        result.prev.next := null;
      }
      result.prev, result.next := null, null;
      retransmitsQueueSize := retransmitsQueueSize - 1;
      Queue := Queue[1..];
    }

    lemma PlaceOf(txp: TxPayload) returns (i: nat)
      requires Valid() && txp in Queue
      ensures i < |Queue| && Queue[i] == txp
      ensures txp.next == (if i == 0 then null else Queue[i - 1]) && txp.prev == (if i == |Queue| - 1 then null else Queue[i + 1])
    {
      i :| 0 <= i < |Queue| && Queue[i] == txp;
      assert i > 0 ==> Queue[i].next == Queue[i - 1];
      assert i < |Queue| - 1 ==> Queue[i].prev == Queue[i + 1];
    }

    /** Also for payloads that are not queued, which it leaves alone. */
    method Delete(txp: TxPayload)
      requires Valid() && Accepts(txp)
      modifies this, Known`next, Known`prev, txp`next, txp`prev
      ensures Valid() && Queue == Without(old(Queue), txp) && Known == old(Known) + {txp}
    {
      Enroll(txp);
      Remove(txp);
      Clear(txp);
    }

    method Remove(txp: TxPayload)
      requires Valid() && txp in Known
      modifies this, Known`next, Known`prev
      ensures Valid() && Queue == Without(old(Queue), txp) && txp !in Queue && Known == old(Known)
    {
      WithoutKeeps(Queue, txp);
      if txp in Queue {
        ghost var i := PlaceOf(txp);
        WithoutAt(Queue, i);
      } else {
        WithoutAbsent(Queue, txp);
      }
      if retxHead == txp {
        var head := PopHead();
      } else if txp == retxTail {
        DropTail();
      } else if txp.prev != null {
        Unlink(txp);
      }
    }

    method Clear(txp: TxPayload)
      requires Valid() && txp in Known && txp !in Queue
      modifies txp`next, txp`prev
      ensures Valid()
    {
      txp.prev, txp.next := null, null;
    }

    /** The tail, which is not the head as well. */
    method DropTail()
      requires Valid() && |Queue| > 1
      modifies this, Known`next, Known`prev
      ensures Valid() && Known == old(Known) && Queue == old(Queue)[..|old(Queue)| - 1]
    {
      var txp := retxTail;
      ghost var i := PlaceOf(txp);
      retxTail := txp.next;
      retxTail.prev := null;
      retransmitsQueueSize := retransmitsQueueSize - 1;
      txp.prev, txp.next := null, null;
      Queue := Queue[..|Queue| - 1];
    }

    method Bypass(txp: TxPayload, ghost i: nat)
      requires Valid() && 0 < i < |Queue| - 1 && txp == Queue[i]
      modifies Known`next, Known`prev
      ensures ChainedAround(Queue, i) && Ended(Queue) && Unlinked(Known, Queue) && txp.next == null && txp.prev == null
    {
      assert Queue[i].prev == Queue[i + 1] && Queue[i].next == Queue[i - 1];
      txp.prev.next := txp.next;
      txp.next.prev := txp.prev;
      txp.prev, txp.next := null, null;
    }

    method Splice(txp: TxPayload, ghost i: nat) returns (ghost r: seq<TxPayload>)
      requires Valid() && 0 < i < |Queue| - 1 && txp == Queue[i]
      modifies Known`next, Known`prev
      ensures Chained(r) && Ended(r) && Unlinked(Known, r)
      ensures r == Without(Queue, txp) && Spliced(Queue, r)
    {
      Bypass(txp, i);
      r := Queue[..i] + Queue[i + 1..];
      CutOut(Queue, i, r);
      Rejoined(Queue, i, r);
    }

    /** A member that is neither head nor tail: its neighbours are joined; its own links go too. */
    method Unlink(txp: TxPayload)
      requires Valid() && txp in Known && txp.prev != null && txp != retxHead && txp != retxTail
      modifies this, Known`next, Known`prev
      ensures Valid() && Known == old(Known)
      ensures txp in old(Queue) && Queue == Without(old(Queue), txp)
    {
      ghost var i := PlaceOf(txp);
      ghost var r := Splice(txp, i);
      Shrink(r);
    }

    method Shrink(ghost r: seq<TxPayload>)
      requires Spliced(Queue, r) && (forall k :: 0 <= k < |Queue| ==> Queue[k] in Known)
      requires Chained(r) && Ended(r) && Unlinked(Known, r)
      requires retxHead == Queue[0] && retxTail == Queue[|Queue| - 1] && retransmitsQueueSize == |Queue|
      modifies this`Queue, this`retransmitsQueueSize
      ensures Valid() && Queue == r
    {
      retransmitsQueueSize := retransmitsQueueSize - 1;
      Queue := r;
    }

    method AcceptRetransmit(txp: TxPayload, acked: bool)
      requires Valid() && Accepts(txp)
      modifies this, Known`next, Known`prev, txp`next, txp`prev
      ensures Valid() && Queue == if acked then Without(old(Queue), txp) else Pushed(old(Queue), txp)
    {
      if acked {
        Delete(txp);
      } else {
        PushTail(txp);
      }
    }
  }
}
