/** A manager's service as it updates its state in place: elections, membership and the
    table of partitions. */
module ManagerService {
  import opened Common
  import opened Outbox
  import opened Ordered
  import opened ElectionModel
  import opened Placement
  import opened Topology

  datatype Out =
    | Plain(msg: Msg)
    | Table(to: NodeId, epoch: nat, leaderId: NodeId, nodes: map<NodeId, Kind>, partitions: Partitions)
    | RemovePartitionFromReplica(to: NodeId, replica: NodeId, p: PartitionId)
    | NewConnection(node: NodeId)

  function Plains(sent: set<Msg>): set<Out> {
    set m | m in sent :: Plain(m)
  }

  // ------------------------------------------------------------------ placing partitions

  /** Walks back `replica` places from the master, wrapping around. */
  method CalcReplicaIndex(total: nat, master: nat, replica: nat) returns (index: nat)
    requires master < total
    ensures index == ReplicaIndex(total, master, replica)
  {
    var left: nat := replica;
    while left >= total
      invariant ReplicaIndex(total, master, left) == ReplicaIndex(total, master, replica)
    {
      IndexAfterTurn(total, master, left);
      left := left - total;
    }
    IndexWithinTurn(total, master, left);
    index := master;
    if left > index {
      left := left - index;
      index := total - left;
    } else {
      index := index - left;
    }
  }

  /** The copies of one partition: the first is its master, the others its replicas. */
  method PlacePartition(workers: seq<NodeId>, factor: nat, p: PartitionId) returns (part: Partition)
    requires workers != [] && 0 < factor
    ensures part == Placed(workers, factor, p)
  {
    var n := |workers|;
    var first := CalcReplicaIndex(n, p % n, 0);
    IndexWithinTurn(n, p % n, 0);
    part := Partition(workers[first], {});
    for j := 1 to factor
      invariant part.master == workers[p % n]
      invariant part.replicas == set i | 1 <= i < j :: workers[ReplicaIndex(n, p % n, i)]
    {
      var index := CalcReplicaIndex(n, p % n, j);
      part := part.(replicas := part.replicas + {workers[index]});
    }
  }

  method PlaceAll(workers: seq<NodeId>, factor: nat) returns (mapping: Mapping)
    requires workers != []
    ensures mapping == NewMapping(workers, factor)
  {
    mapping := map[];
    if factor > 0 {
      for p := 0 to PARTITIONS_AMOUNT
        invariant mapping == map q | q in AllPartitions() && q < p :: Placed(workers, factor, q)
      {
        var part := PlacePartition(workers, factor, p);
        mapping := mapping[p := part];
      }
    }
  }

  /** A partition's owners that it did not have before. */
  method NewOwners(part: Partition, previous: Partition) returns (r: set<NodeId>)
    ensures r == Owners(part) - Owners(previous)
  {
    r := {};
    if part.master != previous.master && part.master !in previous.replicas {
      r := {part.master};
    }
    r := r + set n | n in part.replicas && n != previous.master && n !in previous.replicas;
  }

  /** The entries in `updates` for the partitions in `done` have replaced those of `base`. */
  ghost predicate Updated(base: Replicas, updates: Replicas, done: set<PartitionId>, r: Replicas) {
    forall p: PartitionId ::
      if p in updates && p in done then p in r && r[p] == updates[p]
      else (p in r <==> p in base) && (p in r ==> r[p] == base[p])
  }

  lemma UpdatedNext(base: Replicas, updates: Replicas, done: set<PartitionId>, r: Replicas, p: PartitionId)
    requires Updated(base, updates, done, r)
    ensures p in updates ==> Updated(base, updates, done + {p}, r[p := updates[p]])
    ensures p !in updates ==> Updated(base, updates, done + {p}, r)
    ensures p !in done ==> (p in r <==> p in base) && (p in r ==> r[p] == base[p])
  {
  }

  lemma UpdatedAll(base: Replicas, updates: Replicas, done: set<PartitionId>, r: Replicas)
    requires updates.Keys <= done && Updated(base, updates, done, r)
    ensures r == base + updates
  {
  }

  /** Notes, for every partition that had owners, the owners it did not have before. */
  method FindNewcomers(previous: Mapping, mapping: Mapping, newReplicas: Replicas) returns (r: Replicas)
    ensures r == newReplicas + Newcomers(previous, mapping)
  {
    ghost var updates := Newcomers(previous, mapping);
    r := newReplicas;
    var todo := previous.Keys;
    while todo != {}
      invariant todo <= previous.Keys
      invariant Updated(newReplicas, updates, previous.Keys - todo, r)
      decreases |todo|
    {
      var p :| p in todo;
      UpdatedNext(newReplicas, updates, previous.Keys - todo, r, p);
      if p in mapping {
        var owners := NewOwners(mapping[p], previous[p]);
        r := r[p := owners];
      }
      assert previous.Keys - (todo - {p}) == previous.Keys - todo + {p};
      todo := todo - {p};
    }
    UpdatedAll(newReplicas, updates, previous.Keys - todo, r);
  }

  // ----------------------------------------------------------- remembering old replicas

  function JoinedOwners(t: Partitions): Replicas {
    map p | p in t.mapping :: Holding(t, p)
  }

  /** Every partition's current owners join its old replicas. */
  method AddCurrentOwners(t: Partitions) returns (r: Replicas)
    ensures r == t.oldReplicas + JoinedOwners(t)
  {
    r := t.oldReplicas;
    var todo := t.mapping.Keys;
    while todo != {}
      invariant todo <= t.mapping.Keys
      invariant Updated(t.oldReplicas, JoinedOwners(t), t.mapping.Keys - todo, r)
      decreases |todo|
    {
      var p :| p in todo;
      UpdatedNext(t.oldReplicas, JoinedOwners(t), t.mapping.Keys - todo, r, p);
      var owners := t.mapping[p].replicas + {t.mapping[p].master};
      if p in r {
        owners := owners + r[p];
      }
      assert owners == JoinedOwners(t)[p];
      r := r[p := owners];
      assert t.mapping.Keys - (todo - {p}) == t.mapping.Keys - todo + {p};
      todo := todo - {p};
    }
    UpdatedAll(t.oldReplicas, JoinedOwners(t), t.mapping.Keys - todo, r);
  }

  function Surviving(all: Replicas, workers: set<NodeId>): Replicas {
    map p | p in all && all[p] * workers != {} :: all[p] * workers
  }

  lemma SurvivingAreCopied(t: Partitions, workers: set<NodeId>)
    ensures Surviving(t.oldReplicas + JoinedOwners(t), workers) == CopiedToOld(t, workers)
  {
    var all := t.oldReplicas + JoinedOwners(t);
    forall p | p in all ensures all[p] == Holding(t, p) {
    }
    assert all.Keys == t.mapping.Keys + t.oldReplicas.Keys;
  }

  /** ... and workers that are gone leave them. */
  method CopyCurrentMappingToOld(t: Partitions, workers: set<NodeId>) returns (r: Replicas)
    ensures r == CopiedToOld(t, workers)
  {
    var all := AddCurrentOwners(t);
    SurvivingAreCopied(t, workers);
    r := Surviving(all, workers);
  }

  /** The workers in ascending order. */
  method SortWorkers(workers: set<NodeId>) returns (r: seq<NodeId>)
    ensures r == Sorted(workers)
  {
    r := TakeAbove(workers, -1, |workers|);
  }

  // ------------------------------------------------------------------------ the service

  function Workers(nodes: map<NodeId, Kind>): set<NodeId> {
    set n | n in nodes && nodes[n].WorkerNode?
  }

  /** Managers that a snapshot names and this manager has yet to connect to. */
  function Unmet(nodes: map<NodeId, Kind>, items: map<NodeId, Kind>): set<Out> {
    set n | n in items && n !in nodes && items[n].ManagerNode? :: NewConnection(n)
  }

  /** Dropping departed nodes and adding unknown workers makes up the new membership. */
  lemma RetainedMembership(nodes: map<NodeId, Kind>, retained: map<NodeId, Kind>, me: NodeId, items: map<NodeId, Kind>)
    requires retained == if items == map[] then nodes else map n | n in nodes && (n == me || n in items) :: nodes[n]
    ensures Unmet(retained, items) == Unmet(nodes, items)
    ensures retained + (map n | n in items && n !in retained && items[n].WorkerNode? :: items[n]) == Membership(nodes, me, items)
  {
    assert forall n :: n in items ==> (n in retained <==> n in nodes);
  }

  class Service {
    const me: NodeId
    var epoch: Option<nat>
    var leader: Option<NodeId>
    var nodes: map<NodeId, Kind>
    var elections: map<nat, Election>
    var partitions: Partitions
    var calculated: set<NodeId>
    var output: seq<Out>

    constructor (me: NodeId, nodes: map<NodeId, Kind>, epoch: Option<nat>)
      ensures this.me == me && Value() == Manager(epoch, None, nodes, map[])
      ensures partitions == Partitions(map[], map[], map[]) && calculated == {} && output == []
    {
      this.me, this.nodes, this.epoch := me, nodes, epoch;
      leader, elections, partitions := None, map[], Partitions(map[], map[], map[]);
      calculated, output := {}, [];
    }

    function Value(): Manager
      reads this
    {
      Manager(epoch, leader, nodes, elections)
    }

    method StartElectionIfNeeded(now: nat, timeout: nat)
      modifies this`elections, this`output
      ensures Value() == StartElection(old(Value()), me, now, timeout).manager
      ensures Extends(old(output), output, Plains(StartElection(old(Value()), me, now, timeout).sent))
    {
      if leader.None? && |nodes| > 1 && epoch.Some? {
        var next := epoch.value + 1;
        var start := true;
        if elections != map[] {
          var last := LastEpoch(elections);
          start := elections[last].ts + timeout < now;
          next := if next < last + 1 then last + 1 else next;
        }
        if start {
          elections := map[next := Mine(now, {})];
          var asked: set<Msg> := set n | n in OtherManagers(nodes, me) :: VoteRequest(me, n, next, now);
          output := PushAll(output, Plains(asked));
        }
      }
    }

    method HandleVoteRequest(from: NodeId, newEpoch: nat, ts: nat)
      modifies this`elections, this`output
      ensures Value() == ElectionModel.HandleVoteRequest(old(Value()), me, from, newEpoch, ts).manager
      ensures Extends(old(output), output, Plains(ElectionModel.HandleVoteRequest(old(Value()), me, from, newEpoch, ts).sent))
    {
      if Behind(epoch, newEpoch) {
        var addNew := true;
        if elections != map[] {
          var last := LastEpoch(elections);
          addNew := newEpoch > last || ts < elections[last].ts;
          if addNew {
            elections := map[];
          }
        }
        if addNew {
          elections := elections[newEpoch := Other(ts, from)];
          output := PushAll(output, Plains({VoteResponse(me, from, from, ts)}));
        } else if newEpoch in elections && elections[newEpoch].Other? {
          output := PushAll(output, Plains({VoteResponse(me, from, elections[newEpoch].candidate, elections[newEpoch].ts)}));
        }
      }
    }

    method HandleVoteResponse(from: NodeId, leaderId: NodeId, ts: nat)
      modifies this`epoch, this`leader, this`elections, this`output
      ensures Value() == ElectionModel.HandleVoteResponse(old(Value()), me, from, leaderId, ts).manager
      ensures Extends(old(output), output, Plains(ElectionModel.HandleVoteResponse(old(Value()), me, from, leaderId, ts).sent))
    {
      if Approves(Value(), me, leaderId, ts) {
        var last := LastEpoch(elections);
        var approvers := elections[last].approvers + {from};
        elections := elections[last := Mine(ts, approvers)];
        var others := OtherManagers(nodes, me);
        if |approvers| == |others| && others <= approvers {
          leader, epoch := Some(me), Some(last);
          var told: set<Msg> := set n | n in OtherNodes(nodes, me) :: Leader(me, n, last, ts);
          output := PushAll(output, Plains(told));
          elections := map[];
        }
      } else if leaderId !in nodes {
        output := PushAll(output, Plains(AskAll(nodes, me)));
      }
    }

    method HandleLeader(id: NodeId, newEpoch: nat)
      modifies this`epoch, this`leader, this`elections, this`output
      ensures Value() == ElectionModel.HandleLeader(old(Value()), me, id, newEpoch).manager
      ensures Extends(old(output), output, Plains(ElectionModel.HandleLeader(old(Value()), me, id, newEpoch).sent))
    {
      if Behind(epoch, newEpoch) {
        elections := map[];
        if id in nodes && nodes[id].ManagerNode? {
          leader, epoch := Some(id), Some(newEpoch);
        } else {
          output := PushAll(output, Plains(AskAll(nodes, me)));
        }
      }
    }

    /** Takes a snapshot of a later epoch, or of this epoch from its leader. */
    method HandleClusterState(newEpoch: nat, leaderId: NodeId, items: map<NodeId, Kind>, table: Partitions)
      modifies this`epoch, this`leader, this`nodes, this`partitions, this`output
      ensures Value() == ElectionModel.HandleClusterState(old(Value()), me, newEpoch, leaderId, items).manager
      ensures partitions == if Accepts(old(epoch), old(leader), newEpoch, leaderId) then table else old(partitions)
      ensures Extends(old(output), output,
        if Accepts(old(epoch), old(leader), newEpoch, leaderId) then Unmet(old(nodes), items) else {})
      ensures old(epoch).None? || old(epoch).value < newEpoch || (old(epoch).value == newEpoch && old(leader) == Some(leaderId))
        ==> epoch == Some(newEpoch) && leader == Some(leaderId) && partitions == table
      ensures old(epoch).Some? && (newEpoch < old(epoch).value || (old(epoch).value == newEpoch && old(leader) != Some(leaderId)))
        ==> Value() == old(Value()) && partitions == old(partitions) && output == old(output)
    {
      if Accepts(epoch, leader, newEpoch, leaderId) {
        epoch, leader, partitions := Some(newEpoch), Some(leaderId), table;
        if items != map[] {
          nodes := map n | n in nodes && (n == me || n in items) :: nodes[n];
        }
        RetainedMembership(old(nodes), nodes, me, items);
        output := PushAll(output, Unmet(nodes, items));
        nodes := JoinWorkers(nodes, items);
      }
    }

    method HandleGetClusterState(to: NodeId)
      modifies this`output
      ensures Extends(old(output), output,
        if epoch.Some? && leader.Some? then {Table(to, epoch.value, leader.value, nodes, partitions)} else {})
    {
      if epoch.Some? && leader.Some? {
        output := PushAll(output, {Table(to, epoch.value, leader.value, nodes, partitions)});
      }
    }

    method HandleNodeDisconnected(id: NodeId)
      modifies this`nodes, this`leader
      ensures Value() == HandleDisconnected(old(Value()), id)
    {
      if id in nodes {
        nodes := nodes - {id};
        if leader == Some(id) || |nodes| == 1 {
          leader := None;
        }
      }
    }

    method HandleNewConnection(id: NodeId, kind: Kind)
      modifies this`nodes, this`output
      ensures Value() == ElectionModel.HandleNewConnection(old(Value()), me, id, kind).manager
      ensures Extends(old(output), output, Plains(ElectionModel.HandleNewConnection(old(Value()), me, id, kind).sent))
    {
      if kind.ManagerNode? && (leader.None? || leader != Some(me)) {
        output := PushAll(output, Plains({GetClusterState(me, id)}));
      }
      nodes := nodes[id := kind];
    }

    /** The heartbeat step's judgement on a leader that has gone silent. */
    method ForgetSilentLeader()
      modifies this`leader
      ensures Value() == ForgetLeader(old(Value()), me)
    {
      if me in nodes && nodes[me].ManagerNode? && leader.Some? && leader != Some(me) {
        if leader.value in nodes && nodes[leader.value].ManagerNode? {
          leader := None;
        }
      }
    }

    /** Takes a replica off a partition's old replicas; an entry it empties goes. */
    method ReleaseReplica(replica: NodeId, p: PartitionId)
      modifies this`partitions
      ensures partitions == Released(old(partitions), p, replica)
    {
      var oldReplicas := partitions.oldReplicas;
      if p in oldReplicas && replica in oldReplicas[p] {
        oldReplicas := oldReplicas[p := oldReplicas[p] - {replica}];
        if oldReplicas[p] == {} {
          oldReplicas := oldReplicas - {p};
        }
        partitions := partitions.(oldReplicas := oldReplicas);
      }
      assert partitions.oldReplicas == Released(old(partitions), p, replica).oldReplicas;
    }

    /** Releases an old replica, and as the leader passes the release on. */
    method HandleRemoveOldPartition(from: NodeId, replica: NodeId, p: PartitionId)
      modifies this`partitions, this`output
      ensures partitions == Released(old(partitions), p, replica)
      ensures At(partitions.oldReplicas, p) == At(old(partitions).oldReplicas, p) - {replica}
      ensures forall q: PartitionId :: q != p ==> At(partitions.oldReplicas, q) == At(old(partitions).oldReplicas, q)
      ensures NoEmptyEntry(old(partitions).oldReplicas) ==> NoEmptyEntry(partitions.oldReplicas)
      ensures Extends(old(output), output,
        if leader == Some(me) then set n | n in nodes.Keys - {replica, from, me} :: RemovePartitionFromReplica(n, replica, p) else {})
    {
      ReleaseReplica(replica, p);
      forall q: PartitionId
        ensures At(partitions.oldReplicas, q) ==
          if q == p then At(old(partitions).oldReplicas, q) - {replica} else At(old(partitions).oldReplicas, q)
      {
        ReleaseKeepsHolders(old(partitions), p, replica, q);
      }
      ReleaseKeepsHolders(old(partitions), p, replica, p);
      if leader == Some(me) {
        output := PushAll(output, set n | n in nodes.Keys - {replica, from, me} :: RemovePartitionFromReplica(n, replica, p));
      }
    }

    /** As the leader, recalculates the table when the set of workers has changed since
        the last calculation, and tells every other node. */
    method WorkerPartitions(factor: nat)
      requires leader.Some? ==> epoch.Some?
      modifies this`partitions, this`calculated, this`output
      ensures if leader == Some(me) && Workers(nodes) != old(calculated)
        then partitions == Recalculated(old(partitions), Workers(nodes), factor) && calculated == Workers(nodes)
        else partitions == old(partitions) && calculated == old(calculated)
      ensures Extends(old(output), output,
        if leader == Some(me) && Workers(nodes) != old(calculated) && Workers(nodes) != {}
        then set n | n in OtherNodes(nodes, me) :: Table(n, epoch.value, leader.value, map[], partitions) else {})
    {
      var workers := Workers(nodes);
      if leader == Some(me) && workers != calculated {
        var previous := CopyCurrentMappingToOld(partitions, workers);
        if workers != {} {
          var sorted := SortWorkers(workers);
          var mapping := PlaceAll(sorted, factor);
          var newReplicas := FindNewcomers(partitions.mapping, mapping, partitions.newReplicas);
          partitions := Partitions(mapping, previous, newReplicas);
          calculated := workers;
          output := PushAll(output, set n | n in OtherNodes(nodes, me) :: Table(n, epoch.value, leader.value, map[], partitions));
        } else {
          partitions := partitions.(oldReplicas := previous);
          calculated := {};
        }
      }
    }
  }

  /** The workers among `done` that a snapshot names and the membership lacks were added. */
  ghost predicate Joined(nodes: map<NodeId, Kind>, items: map<NodeId, Kind>, done: set<NodeId>, r: map<NodeId, Kind>) {
    forall n ::
      if n in nodes then n in r && r[n] == nodes[n]
      else if n in items && n in done && items[n].WorkerNode? then n in r && r[n] == items[n]
      else n !in r
  }

  lemma JoinedNext(nodes: map<NodeId, Kind>, items: map<NodeId, Kind>, done: set<NodeId>, r: map<NodeId, Kind>, n: NodeId)
    requires Joined(nodes, items, done, r) && n in items
    ensures Joined(nodes, items, done + {n}, if n !in r && items[n].WorkerNode? then r[n := items[n]] else r)
  {
  }

  lemma JoinedAll(nodes: map<NodeId, Kind>, items: map<NodeId, Kind>, r: map<NodeId, Kind>)
    requires Joined(nodes, items, items.Keys, r)
    ensures r == nodes + (map n | n in items && n !in nodes && items[n].WorkerNode? :: items[n])
  {
  }

  /** Workers that a snapshot names and the membership lacks are added to it. */
  method JoinWorkers(nodes: map<NodeId, Kind>, items: map<NodeId, Kind>) returns (r: map<NodeId, Kind>)
    ensures r == nodes + (map n | n in items && n !in nodes && items[n].WorkerNode? :: items[n])
  {
    r := nodes;
    var todo := items.Keys;
    while todo != {}
      invariant todo <= items.Keys && Joined(nodes, items, items.Keys - todo, r)
      decreases |todo|
    {
      var n :| n in todo;
      JoinedNext(nodes, items, items.Keys - todo, r, n);
      if n !in r && items[n].WorkerNode? {
        r := r[n := items[n]];
      }
      assert items.Keys - (todo - {n}) == items.Keys - todo + {n};
      todo := todo - {n};
    }
    assert items.Keys - todo == items.Keys;
    JoinedAll(nodes, items, r);
  }
}
