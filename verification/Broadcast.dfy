/** The leader's recalculated table on its way to those who follow it. */
module Broadcast {
  import opened Common
  import opened Outbox
  import opened Topology
  import opened ManagerService
  import opened WorkerSync
  import Electing = ElectionModel
  import Marking = CompletionMarks

  lemma SentIsAppended(before: seq<ManagerService.Out>, after: seq<ManagerService.Out>, sent: set<ManagerService.Out>, o: ManagerService.Out)
    requires Extends(before, after, sent) && o in sent
    ensures |before| <= |after| && o in after[|before|..]
  {
  }

  /** A worker that follows the leader at its epoch ends up with the leader's new table,
      whether or not it has taken a table from it before. */
  method TellWorker(leader: Service, follower: Worker, factor: nat, now: Marking.U64) returns (msg: ManagerService.Out)
    requires leader.leader == Some(leader.me) && leader.epoch.Some? && follower.me in leader.nodes && follower.me != leader.me
    requires Workers(leader.nodes) != leader.calculated && Workers(leader.nodes) != {}
    requires follower.epoch == leader.epoch && follower.leader == Some(leader.me)
    modifies leader, follower
    ensures msg.Table? && msg.to == follower.me
    ensures |old(leader.output)| <= |leader.output| && msg in leader.output[|old(leader.output)|..]
    ensures leader.partitions == Recalculated(old(leader.partitions), Workers(leader.nodes), factor)
    ensures follower.partitions == leader.partitions
    ensures follower.epoch == leader.epoch && follower.leader == Some(leader.me)
  {
    leader.WorkerPartitions(factor);
    msg := ManagerService.Table(follower.me, leader.epoch.value, leader.me, map[], leader.partitions);
    assert follower.me in Electing.OtherNodes(leader.nodes, leader.me);
    SentIsAppended(old(leader.output), leader.output,
      set n | n in Electing.OtherNodes(leader.nodes, leader.me) ::
        ManagerService.Table(n, leader.epoch.value, leader.leader.value, map[], leader.partitions), msg);
    follower.HandleClusterState(msg.epoch, msg.leaderId, msg.nodes, msg.partitions, now);
  }

  /** So does another manager that follows it. */
  method TellManager(leader: Service, follower: Service, factor: nat) returns (msg: ManagerService.Out)
    requires leader != follower
    requires leader.leader == Some(leader.me) && leader.epoch.Some? && follower.me in leader.nodes && follower.me != leader.me
    requires Workers(leader.nodes) != leader.calculated && Workers(leader.nodes) != {}
    requires follower.epoch == leader.epoch && follower.leader == Some(leader.me)
    modifies leader, follower
    ensures msg.Table? && msg.to == follower.me
    ensures |old(leader.output)| <= |leader.output| && msg in leader.output[|old(leader.output)|..]
    ensures leader.partitions == Recalculated(old(leader.partitions), Workers(leader.nodes), factor)
    ensures follower.partitions == leader.partitions
    ensures follower.epoch == leader.epoch && follower.leader == Some(leader.me)
  {
    leader.WorkerPartitions(factor);
    msg := ManagerService.Table(follower.me, leader.epoch.value, leader.me, map[], leader.partitions);
    assert follower.me in Electing.OtherNodes(leader.nodes, leader.me);
    SentIsAppended(old(leader.output), leader.output,
      set n | n in Electing.OtherNodes(leader.nodes, leader.me) ::
        ManagerService.Table(n, leader.epoch.value, leader.leader.value, map[], leader.partitions), msg);
    follower.HandleClusterState(msg.epoch, msg.leaderId, msg.nodes, msg.partitions);
  }
}
