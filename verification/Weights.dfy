/** Data bytes held in a map or a queue of payloads. */
module Weights {
  import opened Messages

  ghost function Total(m: map<int, Payload>): nat
    decreases |m|
  {
    if forall k :: k !in m then 0
    else
      var k :| k in m;
      |m[k].data| + Total(m - {k})
  }

  /** Which entry is counted first does not matter. */
  lemma {:induction false} TotalRemove(m: map<int, Payload>, k: int)
    requires k in m
    ensures Total(m) == |m[k].data| + Total(m - {k})
    decreases |m|
  {
    var j :| j in m && Total(m) == |m[j].data| + Total(m - {j});
    if j != k {
      TotalRemove(m - {j}, k);
      TotalRemove(m - {k}, j);
      assert m - {j} - {k} == m - {k} - {j};
    }
  }

  lemma TotalInsert(m: map<int, Payload>, k: int, p: Payload)
    requires k !in m
    ensures Total(m[k := p]) == Total(m) + |p.data|
  {
    TotalRemove(m[k := p], k);
    assert m[k := p] - {k} == m;
  }

  /** Entries without data do not count. */
  lemma {:induction false} TotalCovered(a: map<int, Payload>, b: map<int, Payload>)
    requires forall k :: k in a ==> (k in b && a[k] == b[k]) || a[k].data == []
    ensures Total(a) <= Total(b)
    decreases |a|
  {
    if exists k :: k in a {
      var k :| k in a;
      TotalRemove(a, k);
      if a[k].data == [] {
        TotalCovered(a - {k}, b);
      } else {
        TotalRemove(b, k);
        TotalCovered(a - {k}, b - {k});
      }
    }
  }

  ghost function QueueBytes(q: seq<Payload>): nat {
    if q == [] then 0 else |q[0].data| + QueueBytes(q[1..])
  }

  lemma {:induction false} QueueBytesSnoc(q: seq<Payload>, p: Payload)
    ensures QueueBytes(q + [p]) == QueueBytes(q) + |p.data|
  {
    if q == [] {
      assert q + [p] == [p];
    } else {
      assert (q + [p])[1..] == q[1..] + [p];
      QueueBytesSnoc(q[1..], p);
    }
  }
}
