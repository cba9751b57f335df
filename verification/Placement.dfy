/** Where the leader puts partitions: arithmetic, and the shape of the result. */
module Placement {
  import opened Common
  import opened Ordered

  datatype Partition = Partition(master: NodeId, replicas: set<NodeId>)

  type Mapping = map<PartitionId, Partition>

  function Owners(part: Partition): set<NodeId> {
    part.replicas + {part.master}
  }

  function AllPartitions(): set<PartitionId> {
    set p: PartitionId | 0 <= p < PARTITIONS_AMOUNT && PartitionOf(p) == p
  }

  /** Replica `j` of a partition sits `j` places before its master, wrapping around. */
  function ReplicaIndex(n: nat, master: nat, j: nat): (i: nat)
    requires master < n
    ensures i < n
  {
    (master - j) % n
  }

  function Placed(workers: seq<NodeId>, factor: nat, p: PartitionId): Partition
    requires workers != []
  {
    var n := |workers|;
    Partition(workers[p % n], set j | 1 <= j < factor :: workers[ReplicaIndex(n, p % n, j)])
  }

  /** The mapping for sorted workers; without a single copy to place it is empty. */
  function NewMapping(workers: seq<NodeId>, factor: nat): Mapping
    requires workers != []
  {
    if factor == 0 then map[] else map p | p in AllPartitions() :: Placed(workers, factor, p)
  }

  ghost predicate Ascending(workers: seq<NodeId>) {
    forall i, j :: 0 <= i < j < |workers| ==> workers[i] < workers[j]
  }

  /** The workers in ascending order, as the leader lists them. */
  ghost function Sorted(workers: set<NodeId>): (s: seq<NodeId>)
    ensures |s| == |workers|
    ensures forall w :: w in s <==> w in workers
    ensures Ascending(s)
  {
    SortedHasAll(workers);
    Page(workers, -1, |workers|)
  }

  lemma SortedHasAll(workers: set<NodeId>)
    ensures var s := Page(workers, -1, |workers|);
      && |s| == |workers| && (forall w :: w in s <==> w in workers)
      && Ascending(s)
  {
    var s := Page(workers, -1, |workers|);
    PageIsPage(workers, -1, |workers|);
    AscendingSize(s);
    assert Elements(s) == workers by {
      if |s| < |workers| {
        forall w | w in workers ensures w in s {
          assert Reaches(s, |workers|, w);
        }
      } else {
        SubsetOfSameSize(Elements(s), workers);
      }
    }
    assert forall w :: w in s <==> w in Elements(s);
  }

  lemma {:induction false} AscendingSize(s: seq<nat>)
    requires Ascending(s)
    ensures |Elements(s)| == |s|
  {
    if s != [] {
      var last := s[|s| - 1];
      var front := s[..|s| - 1];
      AscendingSize(front);
      assert last !in Elements(front);
      assert Elements(s) == Elements(front) + {last};
    }
  }

  lemma {:induction false} SubsetOfSameSize(a: set<nat>, b: set<nat>)
    requires a <= b && |a| == |b|
    ensures a == b
  {
    if a != {} {
      var x :| x in a;
      SubsetOfSameSize(a - {x}, b - {x});
    } else {
      assert b == {};
    }
  }

  // -------------------------------------------------------------- modular arithmetic

  lemma ModUnique(x: int, n: nat, q: int, r: nat)
    requires 0 < n && x == q * n + r && r < n
    ensures x % n == r && x / n == q
  {
    var q', r' := x / n, x % n;
    assert x == q' * n + r';
    assert (q - q') * n == r' - r;
    assert (q' - q) * n == r - r';
    if q > q' {
      MulMonotone(q - q', n);
    } else if q < q' {
      MulMonotone(q' - q, n);
    }
  }

  lemma MulMonotone(a: int, n: nat)
    requires 1 <= a
    ensures n <= a * n
  {
  }

  lemma ModShift(x: int, n: nat)
    requires 0 < n
    ensures (x - n) % n == x % n
  {
    assert x - n == (x / n - 1) * n + x % n;
    ModUnique(x - n, n, x / n - 1, x % n);
  }

  /** Within one turn the index is a plain subtraction, or one that wraps once. */
  lemma IndexWithinTurn(n: nat, master: nat, j: nat)
    requires master < n && j < n
    ensures ReplicaIndex(n, master, j) == if j <= master then master - j else master - j + n
  {
    if j <= master {
      ModUnique(master - j, n, 0, master - j);
    } else {
      ModUnique(master - j, n, -1, master - j + n);
    }
  }

  /** A whole turn leads back to the same place. */
  lemma IndexAfterTurn(n: nat, master: nat, j: nat)
    requires master < n && n <= j
    ensures ReplicaIndex(n, master, j) == ReplicaIndex(n, master, j - n)
  {
    ModShift(master - (j - n), n);
  }

  // ------------------------------------------------------------------- distinct owners

  ghost function Indices(n: nat, master: nat, factor: nat): set<nat>
    requires master < n
  {
    set j | 0 <= j < factor :: ReplicaIndex(n, master, j)
  }

  lemma {:induction false} IndexInTurn(n: nat, master: nat, j: nat) returns (k: nat)
    requires master < n
    ensures k < n && k <= j && ReplicaIndex(n, master, k) == ReplicaIndex(n, master, j)
    decreases j
  {
    if j < n {
      k := j;
    } else {
      IndexAfterTurn(n, master, j);
      k := IndexInTurn(n, master, j - n);
    }
  }

  lemma {:induction false} IndicesCount(n: nat, master: nat, factor: nat)
    requires master < n
    ensures |Indices(n, master, factor)| == if factor < n then factor else n
  {
    if factor == 0 {
      assert Indices(n, master, 0) == {};
    } else {
      var j := factor - 1;
      var i := ReplicaIndex(n, master, j);
      IndicesCount(n, master, j);
      assert Indices(n, master, factor) == Indices(n, master, j) + {i};
      if j < n {
        forall k | 0 <= k < j ensures ReplicaIndex(n, master, k) != i {
          IndexWithinTurn(n, master, k);
          IndexWithinTurn(n, master, j);
        }
      } else {
        IndexAfterTurn(n, master, j);
        assert ReplicaIndex(n, master, j - n) in Indices(n, master, j);
      }
    }
  }

  lemma {:induction false} ImageSize(workers: seq<NodeId>, indices: set<nat>)
    requires Ascending(workers)
    requires forall i :: i in indices ==> i < |workers|
    ensures |set i | i in indices :: workers[i]| == |indices|
  {
    if indices != {} {
      var x :| x in indices;
      var rest := indices - {x};
      ImageSize(workers, rest);
      var image := set i | i in rest :: workers[i];
      assert (set i | i in indices :: workers[i]) == image + {workers[x]};
      forall i | i in rest ensures workers[i] != workers[x] {
        assert i < x || x < i;
      }
    }
  }

  /** The owners of a partition are the workers at its indices. */
  lemma OwnersAreIndexed(workers: seq<NodeId>, factor: nat, p: PartitionId)
    requires workers != [] && 0 < factor
    ensures Owners(Placed(workers, factor, p)) ==
      set i | i in Indices(|workers|, p % |workers|, factor) :: workers[i]
  {
    var n := |workers|;
    var m := p % n;
    IndexWithinTurn(n, m, 0);
    assert ReplicaIndex(n, m, 0) in Indices(n, m, factor);
    forall w | w in Placed(workers, factor, p).replicas
      ensures w in set i | i in Indices(n, m, factor) :: workers[i]
    {
      var j :| 1 <= j < factor && w == workers[ReplicaIndex(n, m, j)];
      assert ReplicaIndex(n, m, j) in Indices(n, m, factor);
    }
    forall i | i in Indices(n, m, factor) ensures workers[i] in Owners(Placed(workers, factor, p)) {
      var j :| 0 <= j < factor && i == ReplicaIndex(n, m, j);
      if j > 0 { assert workers[ReplicaIndex(n, m, j)] in Placed(workers, factor, p).replicas; }
    }
  }

  /** Every partition has exactly min(factor, workers) distinct owners. */
  lemma PlacementSpreads(workers: seq<NodeId>, factor: nat, p: PartitionId)
    requires workers != [] && 0 < factor && Ascending(workers)
    ensures |Owners(Placed(workers, factor, p))| == if factor < |workers| then factor else |workers|
  {
    OwnersAreIndexed(workers, factor, p);
    IndicesCount(|workers|, p % |workers|, factor);
    ImageSize(workers, Indices(|workers|, p % |workers|, factor));
  }

  /** The master is among its own replicas exactly when there are more copies than
      workers. */
  lemma MasterAmongReplicas(workers: seq<NodeId>, factor: nat, p: PartitionId)
    requires workers != [] && 0 < factor && Ascending(workers)
    ensures var part := Placed(workers, factor, p); part.master in part.replicas <==> |workers| < factor
  {
    var n := |workers|;
    var m := p % n;
    var part := Placed(workers, factor, p);
    IndexWithinTurn(n, m, 0);
    if n < factor {
      IndexAfterTurn(n, m, n);
      assert workers[ReplicaIndex(n, m, n)] in part.replicas;
    } else {
      forall j | 1 <= j < factor ensures workers[ReplicaIndex(n, m, j)] != workers[m] {
        IndexWithinTurn(n, m, j);
        var i := ReplicaIndex(n, m, j);
        assert i < m || m < i;
      }
    }
  }

  // ---------------------------------------------------------------------- balance

  ghost function MasteredBelow(total: nat, n: nat, i: nat): set<nat>
    requires 0 < n
  {
    set p: nat | p < total && p % n == i
  }

  lemma DivStep(last: nat, n: nat)
    requires 0 < n
    ensures last % n == n - 1 ==> (last + 1) / n == last / n + 1 && (last + 1) % n == 0
    ensures last % n < n - 1 ==> (last + 1) / n == last / n && (last + 1) % n == last % n + 1
  {
    var q, r := last / n, last % n;
    assert last == q * n + r;
    if r == n - 1 {
      assert last + 1 == (q + 1) * n;
      ModUnique(last + 1, n, q + 1, 0);
    } else {
      ModUnique(last + 1, n, q, r + 1);
    }
  }

  lemma {:induction false} MasteredCount(total: nat, n: nat, i: nat)
    requires i < n
    ensures |MasteredBelow(total, n, i)| == total / n + if i < total % n then 1 else 0
  {
    if total == 0 {
      assert MasteredBelow(0, n, i) == {};
      ModUnique(0, n, 0, 0);
    } else {
      var last := total - 1;
      MasteredCount(last, n, i);
      DivStep(last, n);
      if last % n == i {
        assert MasteredBelow(total, n, i) == MasteredBelow(last, n, i) + {last};
      } else {
        assert MasteredBelow(total, n, i) == MasteredBelow(last, n, i);
      }
    }
  }

  ghost function MasteredBy(workers: seq<NodeId>, factor: nat, w: NodeId): set<PartitionId>
    requires workers != []
  {
    var mapping := NewMapping(workers, factor);
    set p | p in mapping && mapping[p].master == w
  }

  lemma MasteredByIndex(workers: seq<NodeId>, factor: nat, i: nat)
    requires i < |workers| && 0 < factor && Ascending(workers)
    ensures |MasteredBy(workers, factor, workers[i])| == |MasteredBelow(PARTITIONS_AMOUNT, |workers|, i)|
  {
    var n := |workers|;
    var mapping := NewMapping(workers, factor);
    var mastered := MasteredBy(workers, factor, workers[i]);
    var below := MasteredBelow(PARTITIONS_AMOUNT, n, i);
    forall p: PartitionId ensures p in mastered <==> p in below {
      assert p in AllPartitions() && p in mapping && mapping[p].master == workers[p % n];
      if p % n < i { assert workers[p % n] < workers[i]; }
      if i < p % n { assert workers[i] < workers[p % n]; }
    }
    SameElements(mastered, below);
  }

  lemma {:induction false} SameElements(a: set<PartitionId>, b: set<nat>)
    requires forall p: PartitionId :: p in a <==> p in b
    requires forall p :: p in b ==> p < PARTITIONS_AMOUNT
    ensures |a| == |b|
    decreases |b|
  {
    if b == {} {
      assert a == {};
    } else {
      var x :| x in b;
      var y: PartitionId := x;
      SameElements(a - {y}, b - {x});
    }
  }

  /** Any two workers master numbers of partitions that differ by at most one. */
  lemma MastersAreBalanced(workers: seq<NodeId>, factor: nat, v: NodeId, w: NodeId)
    requires 0 < factor && Ascending(workers) && v in workers && w in workers
    ensures |MasteredBy(workers, factor, v)| <= |MasteredBy(workers, factor, w)| + 1
  {
    var i :| 0 <= i < |workers| && workers[i] == v;
    var j :| 0 <= j < |workers| && workers[j] == w;
    MasteredByIndex(workers, factor, i);
    MasteredByIndex(workers, factor, j);
    MasteredCount(PARTITIONS_AMOUNT, |workers|, i);
    MasteredCount(PARTITIONS_AMOUNT, |workers|, j);
  }
}
