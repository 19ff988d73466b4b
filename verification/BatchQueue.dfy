/** The spool as the send loop sees it: a queue of batches, oldest first. */
module BatchQueue {
  import opened Telemetry

  type Queue = seq<MetricBatch>

  function First(b: MetricBatch): nat {
    if b.samples == [] then 0 else FirstSequence(b.samples)
  }

  function Last(b: MetricBatch): nat {
    if b.samples == [] then 0 else LastSequence(b.samples)
  }

  /** Batches with equal boot, first and last sequence share one spool file. */
  predicate SameFile(a: MetricBatch, b: MetricBatch) {
    a.bootId == b.bootId && First(a) == First(b) && Last(a) == Last(b)
  }

  predicate CoveredBy(b: MetricBatch, bootId: string, through: nat) {
    b.bootId == bootId && Last(b) <= through
  }

  /** Cumulative acknowledgement of the first n batches. */
  function Prune(q: Queue, n: nat, bootId: string, through: nat): Queue
    requires n <= |q|
  {
    if n == 0 then []
    else if CoveredBy(q[n - 1], bootId, through) then Prune(q, n - 1, bootId, through)
    else Prune(q, n - 1, bootId, through) + [q[n - 1]]
  }

  lemma {:induction false} PruneMembers(q: Queue, n: nat, bootId: string, through: nat, b: MetricBatch)
    requires n <= |q|
    ensures b in Prune(q, n, bootId, through)
      <==> !CoveredBy(b, bootId, through) && exists i :: 0 <= i < n && q[i] == b
  {
    if n > 0 {
      PruneMembers(q, n - 1, bootId, through, b);
    }
  }

  function Acknowledge(q: Queue, bootId: string, through: nat): Queue {
    Prune(q, |q|, bootId, through)
  }

  /** Where the file of this batch is queued, or the length of the queue. */
  function IndexOf(q: Queue, b: MetricBatch): (at: nat)
    ensures at <= |q|
    ensures at < |q| ==> SameFile(q[at], b)
    ensures forall i :: 0 <= i < at ==> !SameFile(q[i], b)
  {
    if q == [] || SameFile(q[0], b) then 0
    else
      assert forall i :: 0 < i < |q| ==> q[i] == q[1..][i - 1];
      1 + IndexOf(q[1..], b)
  }

  function RemoveFile(q: Queue, b: MetricBatch): Queue {
    var at := IndexOf(q, b);
    if at < |q| then q[..at] + q[at + 1..] else q
  }

  function InsertAt(q: Queue, b: MetricBatch, at: nat): Queue
    requires at <= |q|
  {
    q[..at] + [b] + q[at..]
  }

  function Highest(q: Queue, bootId: string): (h: nat)
    ensures forall b :: b in q && b.bootId == bootId ==> Last(b) <= h
    ensures h == 0 || exists b :: b in q && b.bootId == bootId && Last(b) == h
  {
    if q == [] then 0
    else
      var n := |q| - 1;
      assert q == q[..n] + [q[n]];
      if q[n].bootId == bootId then Max(Highest(q[..n], bootId), Last(q[n])) else Highest(q[..n], bootId)
  }

  /** Within one boot, the queue is in sequence order. */
  predicate BootOrdered(q: Queue) {
    forall i, j :: 0 <= i < j < |q| && q[i].bootId == q[j].bootId ==> Last(q[i]) < First(q[j])
  }

  /** q' holds only batches of q, in an order no worse. */
  ghost predicate Thins(q': Queue, q: Queue) {
    && (BootOrdered(q) ==> BootOrdered(q'))
    && (forall b :: b in q' ==> b in q)
  }

  lemma {:induction false} PruneKeepsOrder(q: Queue, n: nat, bootId: string, through: nat)
    requires n <= |q| && BootOrdered(q)
    ensures BootOrdered(Prune(q, n, bootId, through))
  {
    hide CoveredBy, First, Last;
    if n > 0 {
      PruneKeepsOrder(q, n - 1, bootId, through);
      if !CoveredBy(q[n - 1], bootId, through) {
        var front := Prune(q, n - 1, bootId, through);
        forall i | 0 <= i < |front| && front[i].bootId == q[n - 1].bootId
          ensures Last(front[i]) < First(q[n - 1])
        {
          PruneMembers(q, n - 1, bootId, through, front[i]);
        }
        AppendKeepsOrder(front, q[n - 1]);
      }
    }
  }

  lemma {:induction false} AppendKeepsOrder(q: Queue, b: MetricBatch)
    requires BootOrdered(q)
    requires forall i :: 0 <= i < |q| && q[i].bootId == b.bootId ==> Last(q[i]) < First(b)
    ensures BootOrdered(q + [b])
  {
  }

  lemma {:induction false} AcknowledgeThins(q: Queue, bootId: string, through: nat)
    ensures Thins(Acknowledge(q, bootId, through), q)
    ensures forall b :: b in Acknowledge(q, bootId, through) <==> b in q && !CoveredBy(b, bootId, through)
  {
    if BootOrdered(q) {
      PruneKeepsOrder(q, |q|, bootId, through);
    }
    forall b
      ensures b in Acknowledge(q, bootId, through) <==> b in q && !CoveredBy(b, bootId, through)
    {
      PruneMembers(q, |q|, bootId, through, b);
    }
  }

  lemma {:induction false} WithoutThins(q: Queue, at: nat)
    requires at < |q|
    ensures Thins(q[..at] + q[at + 1..], q)
  {
    hide First, Last;
    var r := q[..at] + q[at + 1..];
    if BootOrdered(q) {
      forall i, j | 0 <= i < j < |r| && r[i].bootId == r[j].bootId
        ensures Last(r[i]) < First(r[j])
      {
        var i', j' := if i < at then i else i + 1, if j < at then j else j + 1;
        assert r[i] == q[i'] && r[j] == q[j'];
      }
    }
  }

  lemma {:induction false} DropThins(q: Queue, k: nat)
    requires k <= |q|
    ensures Thins(q[k..], q)
  {
  }

  lemma {:induction false} RemoveThins(q: Queue, b: MetricBatch)
    ensures Thins(RemoveFile(q, b), q)
    ensures forall x :: x in q ==> x in RemoveFile(q, b) || SameFile(x, b)
  {
    var at := IndexOf(q, b);
    if at < |q| {
      WithoutThins(q, at);
      forall x | x in q ensures x in RemoveFile(q, b) || SameFile(x, b) {
        var i :| 0 <= i < |q| && q[i] == x;
        if i != at {
          assert RemoveFile(q, b)[if i < at then i else i - 1] == x;
        }
      }
    } else {
      DropThins(q, 0);
      assert q[0..] == q;
    }
  }

  /** Pruning that covers one position only removes that position. */
  lemma {:induction false} PruneOneAt(q: Queue, n: nat, bootId: string, through: nat, at: nat)
    requires n <= |q| && at <= |q|
    requires forall i :: 0 <= i < |q| ==> (CoveredBy(q[i], bootId, through) <==> i == at)
    ensures Prune(q, n, bootId, through) == if at < n then q[..at] + q[at + 1..n] else q[..n]
  {
    if n > 0 {
      PruneOneAt(q, n - 1, bootId, through, at);
      assert CoveredBy(q[n - 1], bootId, through) <==> n - 1 == at;
      if at < n - 1 {
        assert q[at + 1..n] == q[at + 1..n - 1] + [q[n - 1]];
      } else if at == n - 1 {
        assert q[at + 1..n] == [];
      } else {
        assert q[..n] == q[..n - 1] + [q[n - 1]];
      }
    }
  }

  lemma {:induction false} RemovedMembers(q: Queue, at: nat)
    requires at < |q| && forall i :: 0 <= i < |q| && q[i] == q[at] ==> i == at
    ensures forall x :: x in q[..at] + q[at + 1..] <==> x in q && x != q[at]
  {
    assert q == q[..at] + [q[at]] + q[at + 1..];
    assert forall i :: 0 <= i < at ==> q[..at][i] == q[i];
    assert forall i :: at < i < |q| ==> q[i] == q[at + 1..][i - at - 1];
  }

  /** Acknowledging the head alone and acknowledging through its last sequence are the same for a queue exactly when
      no batch behind the head is covered by that acknowledgement. */
  lemma {:induction false} HeadAloneExactly(q: Queue)
    requires q != []
    ensures RemoveFile(q, q[0]) == Acknowledge(q, q[0].bootId, Last(q[0]))
      <==> forall i :: 0 < i < |q| ==> !CoveredBy(q[i], q[0].bootId, Last(q[0]))
  {
    hide First, Last, Thins, CoveredBy, Acknowledge;
    var bootId, through := q[0].bootId, Last(q[0]);
    HeadCovered(q[0]);
    assert RemoveFile(q, q[0]) == q[1..];
    hide RemoveFile, IndexOf;
    if forall i :: 0 < i < |q| ==> !CoveredBy(q[i], bootId, through) {
      OnlyHead(q, bootId, through);
    } else {
      var i :| 0 < i < |q| && CoveredBy(q[i], bootId, through);
      assert q[1..][i - 1] == q[i];
      AcknowledgeThins(q, bootId, through);
    }
  }

  lemma {:induction false} HeadCovered(b: MetricBatch)
    ensures CoveredBy(b, b.bootId, Last(b))
  {
  }

  lemma {:induction false} OnlyHead(q: Queue, bootId: string, through: nat)
    requires q != [] && CoveredBy(q[0], bootId, through)
    requires forall i :: 0 < i < |q| ==> !CoveredBy(q[i], bootId, through)
    ensures Acknowledge(q, bootId, through) == q[1..]
  {
    hide CoveredBy;
    PruneOneAt(q, |q|, bootId, through, 0);
    assert q[..0] + q[0 + 1..|q|] == q[1..];
  }
}
