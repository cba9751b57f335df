/** What elections get done: who asks, who votes, who wins and who follows, said of the
    participants' own fields; and that an uncontested election succeeds. */
module ElectionProgress {
  import opened Common
  import opened ElectionModel
  import opened ElectionRuns

  /** `last` is the latest epoch an election is kept for. */
  ghost predicate IsLast(elections: map<nat, Election>, last: nat) {
    last in elections && forall f :: f in elections ==> f <= last
  }

  /** Every election kept is for an earlier epoch. */
  ghost predicate AllBefore(elections: map<nat, Election>, epoch: nat) {
    forall f :: f in elections ==> f < epoch
  }

  // ------------------------------------------------------------------------- asking

  /** A manager without a leader that knows an epoch and another node, and whose last
      election, if any, has timed out. */
  ghost predicate Due(m: Manager, now: nat, timeout: nat) {
    && m.leader == None && m.epoch != None && |m.nodes| > 1
    && forall last :: IsLast(m.elections, last) ==> m.elections[last].ts + timeout < now
  }

  lemma StartsIffDue(m: Manager, now: nat, timeout: nat)
    ensures Starts(m, now, timeout) <==> Due(m, now, timeout)
  {
    if m.elections != map[] {
      var last := LastEpoch(m.elections);
      assert IsLast(m.elections, last);
      assert forall e :: IsLast(m.elections, e) ==> e == last;
    }
  }

  /** `epoch` is the least one above the manager's own and above all it keeps elections for. */
  ghost predicate IsNextEpoch(m: Manager, epoch: nat) {
    && m.epoch.Some? && m.epoch.value < epoch && AllBefore(m.elections, epoch)
    && forall e :: m.epoch.value < e && AllBefore(m.elections, e) ==> epoch <= e
  }

  lemma NextEpochIsNext(m: Manager)
    requires m.epoch.Some?
    ensures IsNextEpoch(m, NextEpoch(m))
  {
    if m.elections != map[] {
      var last := LastEpoch(m.elections);
      forall e | AllBefore(m.elections, e) ensures last < e {
      }
    }
  }

  /** When an election is due, and only then, every other manager is asked once, for the
      least epoch that is later than all the candidate knows of; the candidate keeps that
      election and no other. */
  lemma AsksForTheNextEpoch(m: Manager, me: NodeId, now: nat, timeout: nat)
    ensures !Due(m, now, timeout) ==> StartElection(m, me, now, timeout) == Outcome(m, {})
    ensures Due(m, now, timeout) ==>
      exists epoch :: IsNextEpoch(m, epoch) && StartElection(m, me, now, timeout) == Standing(m, me, now, epoch)
  {
    StartsIffDue(m, now, timeout);
    if Due(m, now, timeout) {
      NextEpochIsNext(m);
      assert StartElection(m, me, now, timeout) == Standing(m, me, now, NextEpoch(m));
    }
  }

  /** A candidate standing for an epoch, and its requests. */
  function Standing(m: Manager, me: NodeId, now: nat, epoch: nat): Outcome {
    Outcome(m.(elections := map[epoch := Mine(now, {})]),
            set n | n in m.nodes && n != me && m.nodes[n] == ManagerNode :: VoteRequest(me, n, epoch, now))
  }

  // ------------------------------------------------------------------------- voting

  /** A manager behind the epoch votes when all its elections are for earlier epochs, or
      when its last one began later than the candidate's. */
  lemma VotesForLaterEpochsAndEarlierElections(v: Manager, me: NodeId, from: NodeId, epoch: nat, ts: nat)
    requires v.epoch.None? || v.epoch.value < epoch
    requires AllBefore(v.elections, epoch) || exists last :: IsLast(v.elections, last) && ts < v.elections[last].ts
    ensures HandleVoteRequest(v, me, from, epoch, ts) ==
      Outcome(v.(elections := map[epoch := Other(ts, from)]), {VoteResponse(me, from, from, ts)})
  {
    if v.elections != map[] {
      assert forall e :: IsLast(v.elections, e) ==> e == LastEpoch(v.elections);
    }
  }

  /** Any other request changes nothing; if a vote was given for that epoch, the answer
      names the candidate that has it. */
  lemma RefusesOtherwise(v: Manager, me: NodeId, from: NodeId, epoch: nat, ts: nat, last: nat)
    requires (v.epoch.Some? && epoch <= v.epoch.value)
      || (IsLast(v.elections, last) && epoch <= last && v.elections[last].ts <= ts)
    ensures HandleVoteRequest(v, me, from, epoch, ts).manager == v
    ensures HandleVoteRequest(v, me, from, epoch, ts).sent ==
      if (v.epoch.None? || v.epoch.value < epoch) && epoch in v.elections && v.elections[epoch].Other?
      then {VoteResponse(me, from, v.elections[epoch].candidate, v.elections[epoch].ts)} else {}
  {
    if v.elections != map[] {
      assert forall e :: IsLast(v.elections, e) ==> e == LastEpoch(v.elections);
    }
  }

  // ---------------------------------------------------------------------- counting

  /** A candidate with its one election for `epoch`, approved so far by `approvers`. */
  ghost predicate IsCandidate(m: Manager, epoch: nat, ts: nat, approvers: set<NodeId>) {
    m.elections == map[epoch := Mine(ts, approvers)]
  }

  function Peers(m: Manager, me: NodeId): set<NodeId> {
    set n | n in m.nodes && n != me && m.nodes[n] == ManagerNode
  }

  lemma OneElection(m: Manager, epoch: nat, ts: nat, approvers: set<NodeId>)
    requires IsCandidate(m, epoch, ts, approvers)
    ensures m.elections != map[] && LastEpoch(m.elections) == epoch
  {
    assert epoch in m.elections;
  }

  /** One approval: it elects if and only if it completes the set of all other managers;
      otherwise it is added to those before. */
  lemma ApprovalCounts(m: Manager, me: NodeId, from: NodeId, epoch: nat, ts: nat, approvers: set<NodeId>)
    requires IsCandidate(m, epoch, ts, approvers)
    ensures HandleVoteResponse(m, me, from, me, ts) ==
      if approvers + {from} == Peers(m, me)
      then Outcome(Manager(Some(epoch), Some(me), m.nodes, map[]), set n | n in m.nodes && n != me :: Leader(me, n, epoch, ts))
      else Outcome(m.(elections := map[epoch := Mine(ts, approvers + {from})]), {})
  {
    OneElection(m, epoch, ts, approvers);
    assert Peers(m, me) == OtherManagers(m.nodes, me);
    if |approvers + {from}| == |Peers(m, me)| && Peers(m, me) <= approvers + {from} {
      SameSize(Peers(m, me), approvers + {from});
    }
  }

  lemma {:induction false} SameSize(a: set<NodeId>, b: set<NodeId>)
    requires a <= b && |a| == |b|
    ensures a == b
  {
    if a != {} {
      var x :| x in a;
      SameSize(a - {x}, b - {x});
    }
  }

  /** A response for another election or another candidate counts for nothing; one that
      names an unknown node makes the manager ask the others. */
  lemma StrayResponsesDoNotCount(m: Manager, me: NodeId, from: NodeId, leaderId: NodeId, ts: nat)
    requires leaderId != me || forall e :: e in m.elections && m.elections[e].Mine? ==> m.elections[e].ts != ts
    ensures HandleVoteResponse(m, me, from, leaderId, ts) ==
      Outcome(m, if leaderId in m.nodes then {} else set n | n in Peers(m, me) :: GetClusterState(me, n))
  {
  }

  /** Approvals arriving one after the other. */
  function Tally(m: Manager, me: NodeId, voters: seq<NodeId>, ts: nat): Manager {
    if voters == [] then m
    else HandleVoteResponse(Tally(m, me, voters[..|voters| - 1], ts), me, voters[|voters| - 1], me, ts).manager
  }

  lemma {:induction false} TallyCollects(m: Manager, me: NodeId, voters: seq<NodeId>, epoch: nat, ts: nat)
    requires IsCandidate(m, epoch, ts, {}) && forall n :: n in voters ==> n in Peers(m, me)
    requires Elements(voters) != Peers(m, me)
    ensures Tally(m, me, voters, ts) == m.(elections := map[epoch := Mine(ts, Elements(voters))])
  {
    if voters == [] {
      assert Elements(voters) == {};
    } else {
      var front, last := voters[..|voters| - 1], voters[|voters| - 1];
      assert voters == front + [last];
      assert Elements(voters) == Elements(front) + {last};
      assert Elements(front) <= Peers(m, me);
      assert last in Peers(m, me);
      assert Elements(front) != Peers(m, me);
      TallyCollects(m, me, front, epoch, ts);
      ApprovalCounts(Tally(m, me, front, ts), me, last, epoch, ts, Elements(front));
    }
  }

  /** Unanimity, in any order and with any repetitions before the last: the approval that
      completes the set of all other managers elects, and not one before it. */
  lemma UnanimityElects(m: Manager, me: NodeId, voters: seq<NodeId>, last: NodeId, epoch: nat, ts: nat)
    requires IsCandidate(m, epoch, ts, {}) && m.leader != Some(me)
    requires forall n :: n in voters ==> n in Peers(m, me)
    requires last in Peers(m, me) && last !in voters
    ensures Tally(m, me, voters, ts).leader != Some(me)
    ensures Elements(voters) + {last} == Peers(m, me) ==>
      var o := HandleVoteResponse(Tally(m, me, voters, ts), me, last, me, ts);
      && o.manager == Manager(Some(epoch), Some(me), m.nodes, map[])
      && o.sent == set n | n in m.nodes && n != me :: Leader(me, n, epoch, ts)
  {
    assert last !in Elements(voters);
    TallyCollects(m, me, voters, epoch, ts);
    ApprovalCounts(Tally(m, me, voters, ts), me, last, epoch, ts, Elements(voters));
  }

  // --------------------------------------------------------------------- following

  /** A manager follows the announced leader of a later epoch if it knows it as a manager;
      if not, it gives up its elections and asks; an earlier epoch changes nothing. */
  lemma LeadersAreFollowed(v: Manager, me: NodeId, id: NodeId, epoch: nat)
    ensures v.epoch.Some? && epoch <= v.epoch.value ==> HandleLeader(v, me, id, epoch) == Outcome(v, {})
    ensures (v.epoch.None? || v.epoch.value < epoch) && id in v.nodes && v.nodes[id] == ManagerNode ==>
      HandleLeader(v, me, id, epoch) == Outcome(Manager(Some(epoch), Some(id), v.nodes, map[]), {})
    ensures (v.epoch.None? || v.epoch.value < epoch) && !(id in v.nodes && v.nodes[id] == ManagerNode) ==>
      HandleLeader(v, me, id, epoch) == Outcome(v.(elections := map[]), set n | n in Peers(v, me) :: GetClusterState(me, n))
  {
    assert Peers(v, me) == OtherManagers(v.nodes, me);
  }

  lemma WorkersFollowLeaders(w: Worker, id: NodeId, epoch: nat)
    ensures (w.epoch.None? || w.epoch.value < epoch) && id in w.nodes && w.nodes[id] == ManagerNode ==>
      WorkerHandleLeader(w, id, epoch) == Worker(Some(epoch), Some(id), w.nodes)
    ensures (w.epoch.Some? && epoch <= w.epoch.value) || id !in w.nodes || w.nodes[id] == WorkerNode ==>
      WorkerHandleLeader(w, id, epoch) == w
  {
  }

  /** A snapshot is taken by whoever has no epoch, an earlier one, or that epoch with that
      leader; everybody else is left as they are. */
  lemma SnapshotsAreTaken(m: Manager, w: Worker, me: NodeId, epoch: nat, leaderId: NodeId, items: map<NodeId, Kind>)
    ensures m.epoch.None? || m.epoch.value < epoch || (m.epoch.value == epoch && m.leader == Some(leaderId)) ==>
      HandleClusterState(m, me, epoch, leaderId, items)
        == Outcome(Manager(Some(epoch), Some(leaderId), Membership(m.nodes, me, items), m.elections), {})
    ensures m.epoch.Some? && (epoch < m.epoch.value || (m.epoch.value == epoch && m.leader != Some(leaderId))) ==>
      HandleClusterState(m, me, epoch, leaderId, items) == Outcome(m, {})
    ensures w.epoch.None? || w.epoch.value < epoch || (w.epoch.value == epoch && w.leader == Some(leaderId)) ==>
      var w' := WorkerHandleClusterState(w, me, epoch, leaderId, items);
      && w'.epoch == Some(epoch) && w'.leader == Some(leaderId)
      && (forall n :: n in w'.nodes <==> n in w.nodes && (items == map[] || n == me || n in items))
      && (forall n :: n in w'.nodes ==> w'.nodes[n] == w.nodes[n])
    ensures w.epoch.Some? && (epoch < w.epoch.value || (w.epoch.value == epoch && w.leader != Some(leaderId))) ==>
      WorkerHandleClusterState(w, me, epoch, leaderId, items) == w
  {
  }

  /** A manager's membership after a snapshot with nodes: itself, every listed node it
      knew, as it knew it, and every listed worker it did not know. */
  lemma MembershipIsExact(nodes: map<NodeId, Kind>, me: NodeId, items: map<NodeId, Kind>, n: NodeId)
    ensures items == map[] ==> Membership(nodes, me, items) == nodes
    ensures items != map[] ==>
      (n in Membership(nodes, me, items) <==>
        (n in nodes && (n == me || n in items)) || (n in items && n !in nodes && items[n] == WorkerNode))
    ensures n in nodes && n in Membership(nodes, me, items) ==> Membership(nodes, me, items)[n] == nodes[n]
    ensures n !in nodes && n in Membership(nodes, me, items) ==> Membership(nodes, me, items)[n] == WorkerNode
  {
  }

  /** A client takes a state unless it is older than what it has, or names another leader
      for the epoch it is at. */
  lemma ClientsTakeStates(c: Client, epoch: nat, leaderId: Option<NodeId>)
    ensures c.epoch < epoch || (c.epoch == epoch && (c.leader == None || c.leader == leaderId)) ==>
      ClientApply(c, epoch, leaderId) == Client(epoch, leaderId)
    ensures epoch < c.epoch || (c.epoch == epoch && c.leader != None && c.leader != leaderId) ==>
      ClientApply(c, epoch, leaderId) == c
  {
  }

  // -------------------------------------------------------------------- membership

  /** A departed node is forgotten, and with it the leader, if it was the leader or leaves
      the manager alone; an unknown node changes nothing. */
  lemma DeparturesAreForgotten(m: Manager, id: NodeId)
    ensures id !in m.nodes ==> HandleDisconnected(m, id) == m
    ensures id in m.nodes ==>
      var m' := HandleDisconnected(m, id);
      && m'.nodes.Keys == m.nodes.Keys - {id} && (forall n :: n in m'.nodes ==> m'.nodes[n] == m.nodes[n])
      && m'.epoch == m.epoch && m'.elections == m.elections
      && m'.leader == if m.leader == Some(id) || |m.nodes| == 2 then None else m.leader
  {
    if id in m.nodes {
      var rest := m.nodes - {id};
      assert rest.Keys == m.nodes.Keys - {id};
      assert |rest| == |rest.Keys| == |m.nodes.Keys| - 1;
    }
  }

  /** A new node is known as what it is; a new manager is asked for its state by every
      manager that does not lead. */
  lemma ConnectionsAreMade(m: Manager, me: NodeId, id: NodeId, kind: Kind)
    ensures HandleNewConnection(m, me, id, kind).manager == Manager(m.epoch, m.leader, m.nodes[id := kind], m.elections)
    ensures HandleNewConnection(m, me, id, kind).sent ==
      if kind == ManagerNode && m.leader != Some(me) then {GetClusterState(me, id)} else {}
  {
  }

  /** A silent leader is forgotten if it is another manager this manager knows. */
  lemma SilentLeadersAreForgotten(m: Manager, me: NodeId, id: NodeId)
    requires me in m.nodes && m.nodes[me] == ManagerNode
    ensures m.leader == Some(id) && id != me && id in m.nodes && m.nodes[id] == ManagerNode ==>
      ForgetLeader(m, me) == Manager(m.epoch, None, m.nodes, m.elections)
    ensures m.leader == None || m.leader == Some(me) ==> ForgetLeader(m, me) == m
  {
  }

  /** A manager that has an epoch and a leader tells whoever asks, and nobody else does. */
  lemma StatesAreAnswered(m: Manager, me: NodeId, to: NodeId, epoch: nat, leaderId: NodeId)
    ensures m.epoch == Some(epoch) && m.leader == Some(leaderId) ==>
      HandleGetClusterState(m, me, to) == Outcome(m, {Snapshot(me, to, epoch, leaderId, m.nodes)})
    ensures m.epoch == None || m.leader == None ==> HandleGetClusterState(m, me, to) == Outcome(m, {})
  {
  }

  // ------------------------------------------------------- an uncontested election

  /** A voter that the candidate's election comes first to: it is behind the epoch asked
      for, keeps no election of that epoch or later, and knows the candidate. */
  ghost predicate Open(v: Manager, candidate: NodeId, epoch: nat) {
    && (v.epoch.None? || v.epoch.value < epoch) && AllBefore(v.elections, epoch)
    && candidate in v.nodes && v.nodes[candidate] == ManagerNode
  }

  /** An election that is due and uncontested succeeds: asked for the next epoch, every
      open voter answers with a vote; those votes, in any order, elect; and every open
      voter, told so, follows the winner at that epoch. */
  lemma UncontestedElectionSucceeds(
      m: Manager, me: NodeId, now: nat, timeout: nat, voters: seq<NodeId>, last: NodeId, v: Manager, voter: NodeId)
    requires Due(m, now, timeout) && Elements(voters) + {last} == Peers(m, me) && last !in voters
    ensures exists epoch :: IsNextEpoch(m, epoch) && SucceedsAt(m, me, now, timeout, voters, last, v, voter, epoch)
  {
    AsksForTheNextEpoch(m, me, now, timeout);
    var epoch :| IsNextEpoch(m, epoch) && StartElection(m, me, now, timeout) == Standing(m, me, now, epoch);
    var standing := Standing(m, me, now, epoch).manager;
    assert Peers(standing, me) == Peers(m, me);
    forall n | n in voters ensures n in Peers(standing, me) {
      assert n in Elements(voters);
    }
    UnanimityElects(standing, me, voters, last, epoch, now);
    if Open(v, me, epoch) {
      VotesForLaterEpochsAndEarlierElections(v, voter, me, epoch, now);
      LeadersAreFollowed(v.(elections := map[epoch := Other(now, me)]), voter, me, epoch);
    }
  }

  ghost predicate SucceedsAt(
      m: Manager, me: NodeId, now: nat, timeout: nat, voters: seq<NodeId>, last: NodeId, v: Manager, voter: NodeId, epoch: nat)
  {
    var start := StartElection(m, me, now, timeout);
    var won := HandleVoteResponse(Tally(start.manager, me, voters, now), me, last, me, now);
    && (forall n :: n in Peers(m, me) ==> VoteRequest(me, n, epoch, now) in start.sent)
    && won.manager.leader == Some(me) && won.manager.epoch == Some(epoch)
    && (forall n :: n in m.nodes && n != me ==> Leader(me, n, epoch, now) in won.sent)
    && (Open(v, me, epoch) ==>
          var vote := HandleVoteRequest(v, voter, me, epoch, now);
          var followed := HandleLeader(vote.manager, voter, me, epoch);
          && vote.sent == {VoteResponse(voter, me, me, now)}
          && followed.manager.leader == Some(me) && followed.manager.epoch == Some(epoch))
  }

  // ------------------------------------------------- workers and clients never go back

  /** From one epoch and leader to another: the epoch never falls, and within an epoch the
      leader, once known, stays. */
  predicate MovesOn(epoch: Option<nat>, leader: Option<NodeId>, epoch': Option<nat>, leader': Option<NodeId>) {
    && (epoch.Some? ==> epoch'.Some? && epoch.value <= epoch'.value)
    && (epoch.Some? && epoch' == epoch && leader.Some? ==> leader' == leader)
  }

  ghost predicate FollowersMoveOn(s: State, s': State) {
    && (forall w :: w in s.workers ==>
          w in s'.workers && MovesOn(s.workers[w].epoch, s.workers[w].leader, s'.workers[w].epoch, s'.workers[w].leader))
    && (forall c :: c in s.clients ==>
          c in s'.clients && MovesOn(Some(s.clients[c].epoch), s.clients[c].leader, Some(s'.clients[c].epoch), s'.clients[c].leader))
  }

  lemma WorkerMovesOn(w: Worker, me: NodeId, id: NodeId, epoch: nat, items: map<NodeId, Kind>)
    ensures var w' := WorkerHandleLeader(w, id, epoch); MovesOn(w.epoch, w.leader, w'.epoch, w'.leader)
    ensures var w' := WorkerHandleClusterState(w, me, epoch, id, items); MovesOn(w.epoch, w.leader, w'.epoch, w'.leader)
  {
  }

  lemma WorkerHearsOn(s: State, msg: Msg)
    requires msg.to in s.workers
    ensures FollowersMoveOn(s, AfterWorkerMsg(s, msg))
  {
    var w := s.workers[msg.to];
    if msg.Leader? {
      WorkerMovesOn(w, msg.to, msg.from, msg.epoch, map[]);
    } else if msg.Snapshot? {
      WorkerMovesOn(w, msg.to, msg.leaderId, msg.epoch, msg.nodes);
    }
  }

  lemma ClientHearsOn(s: State, c: nat, msg: Msg)
    requires c in s.clients && msg.Snapshot?
    ensures FollowersMoveOn(s, s.(clients := s.clients[c := ClientApply(s.clients[c], msg.epoch, Some(msg.leaderId))], clock := s.clock + 1))
  {
  }

  lemma VotesAreCastAlone(s: State, msg: Msg)
    requires msg.to in s.managers
    ensures msg.VoteRequest? ==> AfterVoteRequest(s, msg).workers == s.workers && AfterVoteRequest(s, msg).clients == s.clients
    ensures msg.VoteResponse? ==> AfterVoteResponse(s, msg).workers == s.workers && AfterVoteResponse(s, msg).clients == s.clients
  {
  }

  lemma PuttingAlone(s: State, m: NodeId, o: Outcome)
    ensures Put(s, m, o).workers == s.workers && Put(s, m, o).clients == s.clients
  {
  }

  lemma ManagersHearAlone(s: State, msg: Msg)
    requires msg.to in s.managers
    ensures AfterManagerMsg(s, msg).workers == s.workers && AfterManagerMsg(s, msg).clients == s.clients
  {
    var me, m := msg.to, s.managers[msg.to];
    match msg
    case VoteRequest(_, _, _, _) => VotesAreCastAlone(s, msg);
    case VoteResponse(_, _, _, _) => VotesAreCastAlone(s, msg);
    case Leader(from, _, epoch, _) => PuttingAlone(s, me, HandleLeader(m, me, from, epoch));
    case Snapshot(_, _, epoch, leaderId, nodes) => PuttingAlone(s, me, HandleClusterState(m, me, epoch, leaderId, nodes));
    case GetClusterState(from, _) => PuttingAlone(s, me, HandleGetClusterState(m, me, from));
  }

  lemma ManagersActAlone(s: State, e: Event)
    requires Enabled(s, e)
    requires !e.Receive? && !e.ClientReceive? && !e.WorkerConnect? && !e.WorkerDisconnect?
    ensures Apply(s, e).workers == s.workers && Apply(s, e).clients == s.clients
  {
  }

  lemma FollowersStep(s: State, e: Event)
    requires Enabled(s, e)
    ensures FollowersMoveOn(s, Apply(s, e))
  {
    if e.ClientReceive? {
      ClientHearsOn(s, e.c, e.msg);
    } else if e.Receive? {
      if e.msg.to in s.managers {
        ManagersHearAlone(s, e.msg);
      } else {
        WorkerHearsOn(s, e.msg);
      }
    } else if !e.WorkerConnect? && !e.WorkerDisconnect? {
      ManagersActAlone(s, e);
    }
  }

  lemma MovingOnComposes(a: State, b: State, c: State)
    requires FollowersMoveOn(a, b) && FollowersMoveOn(b, c)
    ensures FollowersMoveOn(a, c)
  {
  }

  /** Whatever the managers do, no worker and no client ever goes back to an earlier epoch
      or changes its leader within one. */
  lemma {:induction false} FollowersNeverGoBack(s: State, events: seq<Event>)
    requires Legal(s, events)
    ensures FollowersMoveOn(s, After(s, events))
    decreases |events|
  {
    if events != [] {
      var s1 := Apply(s, events[0]);
      FollowersStep(s, events[0]);
      FollowersNeverGoBack(s1, events[1..]);
      MovingOnComposes(s, s1, After(s, events));
    }
  }
}
