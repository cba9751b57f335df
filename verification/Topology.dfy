/** The leader's bookkeeping across membership changes, and what workers and clients
    read out of it. */
module Topology {
  import opened Common
  import opened Placement

  type Replicas = map<PartitionId, set<NodeId>>

  datatype Partitions = Partitions(mapping: Mapping, oldReplicas: Replicas, newReplicas: Replicas)

  function At(replicas: Replicas, p: PartitionId): set<NodeId> {
    if p in replicas then replicas[p] else {}
  }

  function OwnersOf(mapping: Mapping, p: PartitionId): set<NodeId> {
    if p in mapping then Owners(mapping[p]) else {}
  }

  /** Everyone the table still names as having the partition. */
  function Holding(t: Partitions, p: PartitionId): set<NodeId> {
    OwnersOf(t.mapping, p) + At(t.oldReplicas, p)
  }

  /** Current owners join the old replicas; workers that are gone leave them. */
  function CopiedToOld(t: Partitions, workers: set<NodeId>): Replicas {
    map p | p in t.mapping.Keys + t.oldReplicas.Keys && Holding(t, p) * workers != {} :: Holding(t, p) * workers
  }

  /** Owners of the new mapping that the previous mapping did not have. */
  function Newcomers(previous: Mapping, newMapping: Mapping): Replicas {
    map p | p in previous && p in newMapping :: Owners(newMapping[p]) - Owners(previous[p])
  }

  /** What the leader does when the set of workers has changed. Without any worker it
      only clears the old replicas and leaves the mapping as it was. */
  ghost function Recalculated(t: Partitions, workers: set<NodeId>, factor: nat): Partitions {
    var previous := CopiedToOld(t, workers);
    if workers == {} then t.(oldReplicas := previous)
    else
      var mapping := NewMapping(Sorted(workers), factor);
      Partitions(mapping, previous, t.newReplicas + Newcomers(t.mapping, mapping))
  }

  /** An old replica reports that it has handed the partition over. */
  function Released(t: Partitions, p: PartitionId, n: NodeId): Partitions {
    if p !in t.oldReplicas || n !in t.oldReplicas[p] then t
    else if t.oldReplicas[p] == {n} then t.(oldReplicas := t.oldReplicas - {p})
    else t.(oldReplicas := t.oldReplicas[p := t.oldReplicas[p] - {n}])
  }

  // ---------------------------------------------------------- runs of one leader

  datatype Event =
    | Recalculate(workers: set<NodeId>, factor: nat)
    | Release(p: PartitionId, n: NodeId)

  ghost function After(t: Partitions, events: seq<Event>): Partitions {
    if events == [] then t
    else
      var before := After(t, events[..|events| - 1]);
      match events[|events| - 1]
      case Recalculate(workers, factor) => Recalculated(before, workers, factor)
      case Release(p, n) => Released(before, p, n)
  }

  /** Reference definition, from the events alone: who has had partition `p`, has been
      present at every recalculation since, and has not been released for it. */
  ghost function Holders(initial: set<NodeId>, events: seq<Event>, p: PartitionId): set<NodeId> {
    if events == [] then initial
    else
      var before := Holders(initial, events[..|events| - 1], p);
      match events[|events| - 1]
      case Recalculate(workers, factor) =>
        before * workers +
          (if workers == {} || factor == 0 then {} else Owners(Placed(Sorted(workers), factor, p)))
      case Release(q, n) => if q == p then before - {n} else before
  }

  lemma EveryPartitionPlaced(workers: set<NodeId>, factor: nat, p: PartitionId)
    requires workers != {}
    ensures OwnersOf(NewMapping(Sorted(workers), factor), p) ==
      if factor == 0 then {} else Owners(Placed(Sorted(workers), factor, p))
  {
    assert p in AllPartitions();
  }

  /** A recalculation keeps exactly the surviving holders and the new owners. */
  lemma RecalculationKeepsHolders(t: Partitions, workers: set<NodeId>, factor: nat, p: PartitionId)
    requires workers != {}
    ensures At(Recalculated(t, workers, factor).oldReplicas, p) == Holding(t, p) * workers
    ensures Holding(Recalculated(t, workers, factor), p) ==
      Holding(t, p) * workers + if factor == 0 then {} else Owners(Placed(Sorted(workers), factor, p))
  {
    EveryPartitionPlaced(workers, factor, p);
  }

  /** No entry of the old replicas is empty. */
  ghost predicate NoEmptyEntry(replicas: Replicas) {
    forall p :: p in replicas ==> replicas[p] != {}
  }

  /** A release takes exactly the released worker off the old replicas of exactly that
      partition, leaves no empty entry, and leaves the rest of the table alone. */
  lemma ReleaseKeepsHolders(t: Partitions, q: PartitionId, n: NodeId, p: PartitionId)
    ensures At(Released(t, q, n).oldReplicas, p) == if p == q then At(t.oldReplicas, p) - {n} else At(t.oldReplicas, p)
    ensures NoEmptyEntry(t.oldReplicas) ==> NoEmptyEntry(Released(t, q, n).oldReplicas)
    ensures Released(t, q, n).mapping == t.mapping && Released(t, q, n).newReplicas == t.newReplicas
  {
  }

  /** Reference definition, from the events alone: the owners of `p` are those of the
      last recalculation that found a worker. */
  ghost function OwnersSince(owners: set<NodeId>, events: seq<Event>, p: PartitionId): set<NodeId> {
    if events == [] then owners
    else
      var last := events[|events| - 1];
      if last.Recalculate? && last.workers != {} then
        (if last.factor == 0 then {} else Owners(Placed(Sorted(last.workers), last.factor, p)))
      else OwnersSince(owners, events[..|events| - 1], p)
  }

  /** ... and its old replicas are the owners and old replicas that the last
      recalculation found present, less those released since. */
  ghost function OldSince(owners: set<NodeId>, before: set<NodeId>, events: seq<Event>, p: PartitionId): set<NodeId> {
    if events == [] then before
    else
      var front := events[..|events| - 1];
      match events[|events| - 1]
      case Recalculate(workers, _) => (OwnersSince(owners, front, p) + OldSince(owners, before, front, p)) * workers
      case Release(q, n) =>
        if q == p then OldSince(owners, before, front, p) - {n} else OldSince(owners, before, front, p)
  }

  lemma RecalculationIsExact(t: Partitions, workers: set<NodeId>, factor: nat, p: PartitionId)
    ensures At(Recalculated(t, workers, factor).oldReplicas, p) == Holding(t, p) * workers
    ensures NoEmptyEntry(Recalculated(t, workers, factor).oldReplicas)
    ensures OwnersOf(Recalculated(t, workers, factor).mapping, p) ==
      if workers == {} then OwnersOf(t.mapping, p)
      else if factor == 0 then {} else Owners(Placed(Sorted(workers), factor, p))
    ensures At(Recalculated(t, workers, factor).newReplicas, p) ==
      if workers == {} || factor == 0 || p !in t.mapping then At(t.newReplicas, p)
      else Owners(Placed(Sorted(workers), factor, p)) - OwnersOf(t.mapping, p)
  {
    if workers != {} {
      EveryPartitionPlaced(workers, factor, p);
      assert p in AllPartitions();
    }
  }

  /** The table is exact: over any run of recalculations and releases it names as owners
      and as old replicas of each partition precisely those the events call for. */
  lemma {:induction false} TableIsExact(t: Partitions, events: seq<Event>, p: PartitionId)
    requires NoEmptyEntry(t.oldReplicas)
    ensures OwnersOf(After(t, events).mapping, p) == OwnersSince(OwnersOf(t.mapping, p), events, p)
    ensures At(After(t, events).oldReplicas, p) == OldSince(OwnersOf(t.mapping, p), At(t.oldReplicas, p), events, p)
    ensures NoEmptyEntry(After(t, events).oldReplicas)
  {
    if events != [] {
      var front := events[..|events| - 1];
      TableIsExact(t, front, p);
      match events[|events| - 1]
      case Recalculate(workers, factor) => RecalculationIsExact(After(t, front), workers, factor, p);
      case Release(q, n) => ReleaseKeepsHolders(After(t, front), q, n, p);
    }
  }

  /** No surviving holder is forgotten: over any run of recalculations and releases,
      whoever has had the partition, stayed and was not released is still named. */
  lemma {:induction false} NoHolderForgotten(t: Partitions, events: seq<Event>, p: PartitionId)
    ensures Holders(Holding(t, p), events, p) <= Holding(After(t, events), p)
  {
    if events != [] {
      var front, last := events[..|events| - 1], events[|events| - 1];
      NoHolderForgotten(t, front, p);
      var before := After(t, front);
      match last
      case Recalculate(workers, factor) =>
        if workers != {} {
          RecalculationKeepsHolders(before, workers, factor, p);
        }
      case Release(q, n) => ReleaseKeepsHolders(before, q, n, p);
    }
  }

  // ------------------------------------------------------------ what clients read

  /** Whom a client asks for a key: the master, then everyone else who may have it. */
  function ReadTargets(t: Partitions, p: PartitionId): Option<(NodeId, set<NodeId>)> {
    if p !in t.mapping then None
    else
      var part := t.mapping[p];
      Some((part.master, (part.replicas + At(t.oldReplicas, p) + At(t.newReplicas, p)) - {part.master}))
  }

  /** A client asks the master first, then exactly the others that the table names as
      having, having had or getting the partition. */
  lemma ReadTargetsAreExact(t: Partitions, p: PartitionId)
    ensures ReadTargets(t, p).Some? <==> p in t.mapping
    ensures p in t.mapping ==>
      var (master, others) := ReadTargets(t, p).value;
      && master == t.mapping[p].master && master !in others
      && others + {master} == Holding(t, p) + At(t.newReplicas, p) + {master}
  {
  }

  /** ... so a client that has accepted the latest table still asks every holder. */
  lemma ClientsReachEveryHolder(t: Partitions, events: seq<Event>, p: PartitionId, n: NodeId)
    requires n in Holders(Holding(t, p), events, p) && p in After(t, events).mapping
    ensures var targets := ReadTargets(After(t, events), p);
      targets.Some? && (n == targets.value.0 || n in targets.value.1)
  {
    NoHolderForgotten(t, events, p);
  }

  // --------------------------------------------------------- whom a worker serves

  predicate Owns(t: Partitions, p: PartitionId, n: NodeId) {
    n in OwnersOf(t.mapping, p)
  }

  /** The recipients a worker has to send a partition to. An old replica serves every
      owner. When no old replica is left, owners that had the partition before serve
      the newcomers they have not completed yet. */
  function SyncTargets(
      t: Partitions, p: PartitionId, me: NodeId, connected: set<NodeId>, synced: set<NodeId>): set<NodeId>
  {
    var wanted :=
      if me in At(t.oldReplicas, p) then OwnersOf(t.mapping, p) - {me}
      else if At(t.oldReplicas, p) == {} && Owns(t, p, me) && p in t.newReplicas && me !in t.newReplicas[p]
      then t.newReplicas[p] - synced
      else {};
    wanted * connected
  }

  /** Whom a worker does not serve: itself, anybody not connected, anybody at all when it
      neither has had nor has the partition, or while others have yet to hand it over, or
      when it is itself waiting for the partition. */
  lemma WhoDoesNotServe(t: Partitions, p: PartitionId, me: NodeId, connected: set<NodeId>, synced: set<NodeId>)
    ensures me !in SyncTargets(t, p, me, connected, synced)
    ensures SyncTargets(t, p, me, connected, synced) <= connected
    ensures me !in At(t.oldReplicas, p) && me !in OwnersOf(t.mapping, p) ==> SyncTargets(t, p, me, connected, synced) == {}
    ensures me !in At(t.oldReplicas, p) && At(t.oldReplicas, p) != {} ==> SyncTargets(t, p, me, connected, synced) == {}
    ensures me !in At(t.oldReplicas, p) && me in At(t.newReplicas, p) ==> SyncTargets(t, p, me, connected, synced) == {}
  {
  }

  /** Whom it does: as an old replica every other connected owner; as a retained owner,
      once no old replica is left, every connected newcomer not yet completed. */
  lemma WhoIsServed(t: Partitions, p: PartitionId, me: NodeId, connected: set<NodeId>, synced: set<NodeId>, n: NodeId)
    requires n in SyncTargets(t, p, me, connected, synced)
    ensures me in At(t.oldReplicas, p) ==> n in OwnersOf(t.mapping, p)
    ensures me !in At(t.oldReplicas, p) ==>
      At(t.oldReplicas, p) == {} && me in OwnersOf(t.mapping, p) && n in At(t.newReplicas, p) && n !in synced
  {
  }

  /** Migration plan coverage: after a recalculation that leaves a surviving holder,
      the newcomers are exactly the owners that the previous mapping lacked, and every
      owner is a surviving holder itself or is served by each surviving holder that is
      connected to it. */
  lemma PlanCoversEveryOwner(t: Partitions, workers: set<NodeId>, factor: nat, p: PartitionId, owner: NodeId, holder: NodeId, connected: set<NodeId>, synced: set<NodeId>)
    requires p in t.mapping && workers != {} && 0 < factor
    requires holder in Holding(t, p) * workers
    ensures var t' := Recalculated(t, workers, factor);
      && p in t'.newReplicas && t'.newReplicas[p] == OwnersOf(t'.mapping, p) - OwnersOf(t.mapping, p)
      && (Owns(t', p, owner) && owner in connected ==>
            owner == holder || owner in SyncTargets(t', p, holder, connected, synced))
      && (Owns(t', p, owner) && owner != holder && owner !in connected ==>
            owner !in SyncTargets(t', p, holder, connected, synced))
  {
    RecalculationKeepsHolders(t, workers, factor, p);
    EveryPartitionPlaced(workers, factor, p);
    assert p in AllPartitions();
  }
}

/** Which recipients a worker counts as already synchronised, and for how long. */
module CompletionMarks {
  import opened Common
  import opened Placement
  import opened Topology

  const U64_MAX: nat := 0xFFFF_FFFF_FFFF_FFFF

  type U64 = n: nat | n <= U64_MAX

  type Marks = map<PartitionId, map<NodeId, U64>>

  datatype Worker = Worker(partitions: Partitions, stamp: U64, marks: Marks)

  function Saturating(stamp: U64): U64 {
    if stamp < U64_MAX then stamp + 1 else U64_MAX
  }

  /** An accepted cluster state: a different table gets a later stamp, up to saturation. */
  function Accepted(w: Worker, partitions: Partitions, now: U64): Worker {
    if w.partitions == partitions then w
    else w.(partitions := partitions, stamp := if Saturating(w.stamp) < now then now else Saturating(w.stamp))
  }

  /** A completed recipient is marked with the current stamp by a worker that owns
      the partition. */
  function Completed(w: Worker, me: NodeId, p: PartitionId, n: NodeId): Worker {
    if !Owns(w.partitions, p, me) then w
    else w.(marks := w.marks[p := (if p in w.marks then w.marks[p] else map[])[n := w.stamp]])
  }

  /** The recipients whose mark carries the current stamp. */
  function Synced(w: Worker, p: PartitionId): set<NodeId> {
    if p !in w.marks then {} else set n | n in w.marks[p] && w.marks[p][n] == w.stamp
  }

  datatype Event = Accept(partitions: Partitions, now: U64) | Complete(p: PartitionId, n: NodeId)

  function After(w: Worker, me: NodeId, events: seq<Event>): Worker {
    if events == [] then w
    else
      var before := After(w, me, events[..|events| - 1]);
      match events[|events| - 1]
      case Accept(partitions, now) => Accepted(before, partitions, now)
      case Complete(p, n) => Completed(before, me, p, n)
  }

  lemma {:induction false} AfterBoth(w: Worker, me: NodeId, a: seq<Event>, b: seq<Event>)
    ensures After(w, me, a + b) == After(After(w, me, a), me, b)
  {
    if b == [] {
      assert a + b == a;
    } else {
      var front := b[..|b| - 1];
      assert (a + b)[..|a + b| - 1] == a + front;
      AfterBoth(w, me, a, front);
    }
  }

  /** Reference definition, from the events alone: the recipients of `p` completed by
      an owner since the table last changed. */
  function CompletedSinceChange(w: Worker, me: NodeId, events: seq<Event>, p: PartitionId): set<NodeId> {
    if events == [] then {}
    else
      var front := events[..|events| - 1];
      var before := CompletedSinceChange(w, me, front, p);
      match events[|events| - 1]
      case Accept(partitions, _) => if After(w, me, front).partitions == partitions then before else {}
      case Complete(q, n) => if q == p && Owns(After(w, me, front).partitions, p, me) then before + {n} else before
  }

  /** The table never changes at a saturated stamp. */
  predicate BelowSaturation(w: Worker, me: NodeId, events: seq<Event>) {
    events != [] ==>
      var front := events[..|events| - 1];
      && BelowSaturation(w, me, front)
      && (events[|events| - 1].Accept? && After(w, me, front).partitions != events[|events| - 1].partitions ==>
            After(w, me, front).stamp < U64_MAX)
  }

  ghost predicate MarksBehind(w: Worker) {
    forall p, n :: p in w.marks && n in w.marks[p] ==> w.marks[p][n] <= w.stamp
  }

  lemma {:induction false} MarksStayBehind(w: Worker, me: NodeId, events: seq<Event>)
    requires w.marks == map[]
    ensures MarksBehind(After(w, me, events))
  {
    if events != [] {
      MarksStayBehind(w, me, events[..|events| - 1]);
      var after := After(w, me, events);
      forall p, n | p in after.marks && n in after.marks[p] ensures after.marks[p][n] <= after.stamp {
      }
    }
  }

  /** A change of the table makes every recipient eligible again exactly when the stamp
      is not saturated, unless nobody was marked. */
  lemma ChangeClearsMarks(w: Worker, partitions: Partitions, now: U64)
    requires MarksBehind(w) && w.partitions != partitions
    ensures (forall p: PartitionId :: Synced(Accepted(w, partitions, now), p) == {})
      <==> (w.stamp < U64_MAX || forall p: PartitionId :: Synced(w, p) == {})
  {
    var w' := Accepted(w, partitions, now);
    if w.stamp < U64_MAX {
      assert w.stamp < w'.stamp;
      forall p: PartitionId ensures Synced(w', p) == {} {
      }
    } else {
      assert w'.stamp == w.stamp && w'.marks == w.marks;
      assert forall p: PartitionId :: Synced(w', p) == Synced(w, p);
    }
  }

  /** An accepted table that differs is stamped with the present or, when the clock lags,
      just after the previous stamp; the same table changes nothing. */
  lemma StampsMoveOn(w: Worker, partitions: Partitions, now: U64)
    ensures var w' := Accepted(w, partitions, now);
      && w'.partitions == partitions && w'.marks == w.marks
      && (w.partitions == partitions ==> w'.stamp == w.stamp)
      && (w.partitions != partitions ==>
            now <= w'.stamp && w.stamp <= w'.stamp && (w.stamp < U64_MAX ==> w.stamp < w'.stamp)
            && (w'.stamp == now || w'.stamp == w.stamp || w'.stamp == w.stamp + 1))
  {
  }

  /** Completion marks are exact: the recipients counted as synchronised are those
      completed since the table last changed, no more and no fewer. */
  lemma {:induction false} MarksAreExact(w: Worker, me: NodeId, events: seq<Event>, p: PartitionId)
    requires w.marks == map[] && BelowSaturation(w, me, events)
    ensures Synced(After(w, me, events), p) == CompletedSinceChange(w, me, events, p)
  {
    if events == [] {
    } else {
      var front, last := events[..|events| - 1], events[|events| - 1];
      MarksAreExact(w, me, front, p);
      MarksStayBehind(w, me, front);
      var before := After(w, me, front);
      var after := After(w, me, events);
      if last.Accept? && before.partitions != last.partitions {
        assert before.stamp < after.stamp;
        assert Synced(after, p) == {};
      } else if last.Complete? && last.p == p && Owns(before.partitions, p, me) {
        assert Synced(after, p) == Synced(before, p) + {last.n};
      }
    }
  }

  /** While no old replica is left, a recipient completed since the last change is not
      served again, and every other connected newcomer is. */
  lemma CompletedRecipientsRest(w: Worker, me: NodeId, events: seq<Event>, p: PartitionId, connected: set<NodeId>, n: NodeId)
    requires w.marks == map[] && BelowSaturation(w, me, events)
    requires var t := After(w, me, events).partitions;
      && At(t.oldReplicas, p) == {} && Owns(t, p, me) && p in t.newReplicas && me !in t.newReplicas[p]
      && n in t.newReplicas[p] && n in connected
    ensures var after := After(w, me, events);
      n in SyncTargets(after.partitions, p, me, connected, Synced(after, p))
      <==> n !in CompletedSinceChange(w, me, events, p)
  {
    MarksAreExact(w, me, events, p);
  }
}
