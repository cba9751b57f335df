/** What each message does to one manager, worker or client, as values. Sent
    messages are sets: each handler sends at most one message of a kind to a node. */
module ElectionModel {
  import opened Common

  datatype Kind = ManagerNode | WorkerNode

  datatype Election =
    | Mine(ts: nat, approvers: set<NodeId>)
    | Other(ts: nat, candidate: NodeId)

  datatype Msg =
    | VoteRequest(from: NodeId, to: NodeId, epoch: nat, ts: nat)
    | VoteResponse(from: NodeId, to: NodeId, leaderId: NodeId, ts: nat)
    | Leader(from: NodeId, to: NodeId, epoch: nat, ts: nat)
    | Snapshot(from: NodeId, to: NodeId, epoch: nat, leaderId: NodeId, nodes: map<NodeId, Kind>)
    | GetClusterState(from: NodeId, to: NodeId)

  datatype Manager = Manager(
    epoch: Option<nat>, leader: Option<NodeId>, nodes: map<NodeId, Kind>, elections: map<nat, Election>)

  datatype Outcome = Outcome(manager: Manager, sent: set<Msg>)

  /** `current < Some(epoch)`, with no epoch below every epoch. */
  predicate Behind(current: Option<nat>, epoch: nat) {
    current.None? || current.value < epoch
  }

  function OtherManagers(nodes: map<NodeId, Kind>, me: NodeId): set<NodeId> {
    set n | n in nodes && n != me && nodes[n].ManagerNode?
  }

  function OtherNodes(nodes: map<NodeId, Kind>, me: NodeId): set<NodeId> {
    set n | n in nodes && n != me
  }

  function AskAll(nodes: map<NodeId, Kind>, me: NodeId): set<Msg> {
    set n | n in OtherManagers(nodes, me) :: GetClusterState(me, n)
  }

  lemma {:induction false} LastEpochExists(elections: map<nat, Election>)
    requires elections != map[]
    ensures exists e :: e in elections && forall f :: f in elections ==> f <= e
    decreases |elections|
  {
    var e :| e in elections;
    var rest := elections - {e};
    if rest == map[] {
      assert forall f :: f in elections ==> f == e || f in rest;
    } else {
      assert rest.Keys == elections.Keys - {e};
      assert |rest| < |elections|;
      LastEpochExists(rest);
      var g :| g in rest && forall f :: f in rest ==> f <= g;
      forall f | f in elections ensures f <= if g < e then e else g {
        if f != e { assert f in rest; }
      }
      assert (if g < e then e else g) in elections;
    }
  }

  /** The greatest epoch an election is kept for. */
  function LastEpoch(elections: map<nat, Election>): (e: nat)
    requires elections != map[]
    ensures e in elections && forall f :: f in elections ==> f <= e
  {
    LastEpochExists(elections);
    var e :| e in elections && forall f :: f in elections ==> f <= e;
    e
  }

  /** The last election is none or older than a randomised timeout. */
  predicate Starts(m: Manager, now: nat, timeout: nat) {
    && m.leader.None? && |m.nodes| > 1 && m.epoch.Some?
    && (m.elections == map[] || m.elections[LastEpoch(m.elections)].ts + timeout < now)
  }

  function NextEpoch(m: Manager): nat
    requires m.epoch.Some?
  {
    var epoch := m.epoch.value + 1;
    if m.elections != map[] && epoch < LastEpoch(m.elections) + 1 then LastEpoch(m.elections) + 1 else epoch
  }

  /** A manager without a leader starts an election of its own. */
  function StartElection(m: Manager, me: NodeId, now: nat, timeout: nat): Outcome {
    if Starts(m, now, timeout) then
      var next := NextEpoch(m);
      Outcome(m.(elections := map[next := Mine(now, {})]),
              set n | n in OtherManagers(m.nodes, me) :: VoteRequest(me, n, next, now))
    else Outcome(m, {})
  }

  /** A request wins a vote when it names a later epoch than the last election, or
      started earlier than it, whatever its epoch. */
  predicate Grants(m: Manager, epoch: nat, ts: nat) {
    && Behind(m.epoch, epoch)
    && (m.elections == map[] || LastEpoch(m.elections) < epoch || ts < m.elections[LastEpoch(m.elections)].ts)
  }

  function HandleVoteRequest(m: Manager, me: NodeId, from: NodeId, epoch: nat, ts: nat): Outcome {
    if Grants(m, epoch, ts) then
      Outcome(m.(elections := map[epoch := Other(ts, from)]), {VoteResponse(me, from, from, ts)})
    else if Behind(m.epoch, epoch) && epoch in m.elections && m.elections[epoch].Other? then
      Outcome(m, {VoteResponse(me, from, m.elections[epoch].candidate, m.elections[epoch].ts)})
    else Outcome(m, {})
  }

  /** The response approves the election this manager has in progress. */
  predicate Approves(m: Manager, me: NodeId, leaderId: NodeId, ts: nat) {
    && m.elections != map[]
    && m.elections[LastEpoch(m.elections)].Mine?
    && m.elections[LastEpoch(m.elections)].ts == ts
    && leaderId == me
  }

  /** ... and is the last approval it needs. */
  predicate Elects(m: Manager, me: NodeId, from: NodeId, leaderId: NodeId, ts: nat) {
    Approves(m, me, leaderId, ts) &&
      var approvers := m.elections[LastEpoch(m.elections)].approvers + {from};
      var others := OtherManagers(m.nodes, me);
      |approvers| == |others| && others <= approvers
  }

  function HandleVoteResponse(m: Manager, me: NodeId, from: NodeId, leaderId: NodeId, ts: nat): Outcome {
    if Elects(m, me, from, leaderId, ts) then
      var epoch := LastEpoch(m.elections);
      Outcome(m.(leader := Some(me), epoch := Some(epoch), elections := map[]),
              set n | n in OtherNodes(m.nodes, me) :: Leader(me, n, epoch, ts))
    else if Approves(m, me, leaderId, ts) then
      var epoch := LastEpoch(m.elections);
      Outcome(m.(elections := m.elections[epoch := Mine(ts, m.elections[epoch].approvers + {from})]), {})
    else if leaderId !in m.nodes then Outcome(m, AskAll(m.nodes, me))
    else Outcome(m, {})
  }

  function HandleLeader(m: Manager, me: NodeId, id: NodeId, epoch: nat): Outcome {
    if !Behind(m.epoch, epoch) then Outcome(m, {})
    else if id in m.nodes && m.nodes[id].ManagerNode? then
      Outcome(m.(elections := map[], leader := Some(id), epoch := Some(epoch)), {})
    else Outcome(m.(elections := map[]), AskAll(m.nodes, me))
  }

  /** The rule by which managers and workers accept a cluster snapshot. */
  predicate Accepts(epoch: Option<nat>, leader: Option<NodeId>, newEpoch: nat, newLeader: NodeId) {
    Behind(epoch, newEpoch) || (epoch == Some(newEpoch) && leader == Some(newLeader))
  }

  /** A snapshot with nodes replaces the membership: departed nodes go, unknown
      workers are added, unknown managers have to connect first. */
  function Membership(nodes: map<NodeId, Kind>, me: NodeId, items: map<NodeId, Kind>): map<NodeId, Kind> {
    if items == map[] then nodes
    else
      map n | n in nodes.Keys + items.Keys && (n == me || n in items) && (n in nodes || items[n].WorkerNode?) ::
        if n in nodes then nodes[n] else items[n]
  }

  function HandleClusterState(m: Manager, me: NodeId, epoch: nat, leaderId: NodeId, items: map<NodeId, Kind>): Outcome {
    if Accepts(m.epoch, m.leader, epoch, leaderId) then
      Outcome(m.(epoch := Some(epoch), leader := Some(leaderId), nodes := Membership(m.nodes, me, items)), {})
    else Outcome(m, {})
  }

  function HandleGetClusterState(m: Manager, me: NodeId, to: NodeId): Outcome {
    if m.epoch.Some? && m.leader.Some?
    then Outcome(m, {Snapshot(me, to, m.epoch.value, m.leader.value, m.nodes)})
    else Outcome(m, {})
  }

  function HandleDisconnected(m: Manager, id: NodeId): Manager {
    if id !in m.nodes then m
    else
      var nodes := m.nodes - {id};
      m.(nodes := nodes, leader := if m.leader == Some(id) || |nodes| == 1 then None else m.leader)
  }

  function HandleNewConnection(m: Manager, me: NodeId, id: NodeId, kind: Kind): Outcome {
    Outcome(m.(nodes := m.nodes[id := kind]),
            if kind.ManagerNode? && m.leader != Some(me) then {GetClusterState(me, id)} else {})
  }

  /** A manager that is not the leader forgets a leader whose heartbeat is too old. */
  function ForgetLeader(m: Manager, me: NodeId): Manager {
    if me in m.nodes && m.nodes[me].ManagerNode? && m.leader.Some? && m.leader != Some(me)
       && m.leader.value in m.nodes && m.nodes[m.leader.value].ManagerNode?
    then m.(leader := None) else m
  }

  // ------------------------------------------------------------- workers and clients

  datatype Worker = Worker(epoch: Option<nat>, leader: Option<NodeId>, nodes: map<NodeId, Kind>)

  function WorkerHandleLeader(w: Worker, id: NodeId, epoch: nat): Worker {
    if Behind(w.epoch, epoch) && id in w.nodes && w.nodes[id].ManagerNode?
    then w.(epoch := Some(epoch), leader := Some(id)) else w
  }

  function WorkerHandleClusterState(w: Worker, me: NodeId, epoch: nat, leaderId: NodeId, items: map<NodeId, Kind>): Worker {
    if Accepts(w.epoch, w.leader, epoch, leaderId) then
      w.(epoch := Some(epoch), leader := Some(leaderId),
         nodes := if items == map[] then w.nodes else map n | n in w.nodes && (n == me || n in items) :: w.nodes[n])
    else w
  }

  /** A client starts at epoch zero with no leader. */
  datatype Client = Client(epoch: nat, leader: Option<NodeId>)

  /** A state may come without a leader's name; managers send none such. */
  function ClientApply(c: Client, epoch: nat, leaderId: Option<NodeId>): Client {
    if epoch < c.epoch || (epoch == c.epoch && c.leader.Some? && c.leader != leaderId) then c
    else Client(epoch, leaderId)
  }
}

/** Every run of managers, workers and clients over a network that may lose, repeat,
    delay and reorder messages. */
module ElectionRuns {
  import opened Common
  import opened ElectionModel

  /** An election, born at a point in time, for an epoch. */
  datatype Birth = Birth(epoch: nat, time: nat)

  datatype Vote = Vote(voter: NodeId, candidate: NodeId, ts: nat, epoch: nat, time: nat)

  /** A manager's victory: the election it won and the managers it knew then. */
  datatype Win = Win(winner: NodeId, epoch: nat, ts: nat, peers: set<NodeId>)

  datatype State = State(
    managers: map<NodeId, Manager>, workers: map<NodeId, Worker>, clients: map<nat, Client>,
    msgs: set<Msg>,
    births: map<(NodeId, nat), Birth>, votes: set<Vote>, wins: set<Win>, clock: nat, panicked: bool)

  datatype Event =
    | Start(m: NodeId, now: nat, timeout: nat)
    | Receive(msg: Msg)
    | Answer(m: NodeId, to: NodeId)
    | Broadcast(m: NodeId)
    | Disconnect(m: NodeId, id: NodeId)
    | Connect(m: NodeId, id: NodeId, kind: Kind)
    | Forget(m: NodeId)
    | WorkerConnect(w: NodeId, id: NodeId, kind: Kind)
    | WorkerDisconnect(w: NodeId, id: NodeId)
    | ClientReceive(c: nat, msg: Msg)

  predicate Enabled(s: State, e: Event) {
    match e
    // A manager's clock never shows it the same time for two elections.
    case Start(m, now, _) => m in s.managers && (m, now) !in s.births
    case Receive(msg) => msg in s.msgs && (msg.to in s.managers || msg.to in s.workers)
    case Answer(m, _) => m in s.managers
    case Broadcast(m) => m in s.managers && s.managers[m].leader == Some(m)
    case Disconnect(m, _) => m in s.managers
    case Connect(m, _, _) => m in s.managers
    case Forget(m) => m in s.managers
    case WorkerConnect(w, _, _) => w in s.workers
    case WorkerDisconnect(w, _) => w in s.workers
    case ClientReceive(c, msg) => c in s.clients && msg in s.msgs && msg.Snapshot?
  }

  function Put(s: State, m: NodeId, o: Outcome): State {
    s.(managers := s.managers[m := o.manager], msgs := s.msgs + o.sent, clock := s.clock + 1)
  }

  function AfterStart(s: State, m: NodeId, now: nat, timeout: nat): State
    requires m in s.managers
  {
    var before := s.managers[m];
    var s' := Put(s, m, StartElection(before, m, now, timeout));
    if Starts(before, now, timeout)
    then s'.(births := s.births[(m, now) := Birth(NextEpoch(before), s.clock)])
    else s'
  }

  function AfterVoteRequest(s: State, msg: Msg): State
    requires msg.VoteRequest? && msg.to in s.managers
  {
    var before := s.managers[msg.to];
    var s' := Put(s, msg.to, HandleVoteRequest(before, msg.to, msg.from, msg.epoch, msg.ts));
    if Grants(before, msg.epoch, msg.ts)
    then s'.(votes := s.votes + {Vote(msg.to, msg.from, msg.ts, msg.epoch, s.clock)})
    else s'
  }

  function AfterVoteResponse(s: State, msg: Msg): State
    requires msg.VoteResponse? && msg.to in s.managers
  {
    var before := s.managers[msg.to];
    var s' := Put(s, msg.to, HandleVoteResponse(before, msg.to, msg.from, msg.leaderId, msg.ts));
    if Elects(before, msg.to, msg.from, msg.leaderId, msg.ts)
    then s'.(wins := s.wins + {Win(msg.to, LastEpoch(before.elections), msg.ts, OtherManagers(before.nodes, msg.to))})
    else s'
  }

  function AfterManagerMsg(s: State, msg: Msg): State
    requires msg.to in s.managers
  {
    var me, m := msg.to, s.managers[msg.to];
    match msg
    case VoteRequest(_, _, _, _) => AfterVoteRequest(s, msg)
    case VoteResponse(_, _, _, _) => AfterVoteResponse(s, msg)
    case Leader(from, _, epoch, _) => Put(s, me, HandleLeader(m, me, from, epoch))
    case Snapshot(_, _, epoch, leaderId, nodes) => Put(s, me, HandleClusterState(m, me, epoch, leaderId, nodes))
    case GetClusterState(from, _) => Put(s, me, HandleGetClusterState(m, me, from))
  }

  function AfterWorkerMsg(s: State, msg: Msg): State
    requires msg.to in s.workers
  {
    var w := s.workers[msg.to];
    var w' :=
      match msg
      case Leader(from, _, epoch, _) => WorkerHandleLeader(w, from, epoch)
      case Snapshot(_, _, epoch, leaderId, nodes) => WorkerHandleClusterState(w, msg.to, epoch, leaderId, nodes)
      case _ => w;
    s.(workers := s.workers[msg.to := w'], clock := s.clock + 1)
  }

  /** The leader's partitions-only broadcast; without an epoch to name it panics. */
  function AfterBroadcast(s: State, m: NodeId): State
    requires m in s.managers && s.managers[m].leader.Some?
  {
    var mgr := s.managers[m];
    if mgr.epoch.None? then s.(panicked := true)
    else Put(s, m, Outcome(mgr,
      set n | n in OtherNodes(mgr.nodes, m) :: Snapshot(m, n, mgr.epoch.value, mgr.leader.value, map[])))
  }

  function Apply(s: State, e: Event): State
    requires Enabled(s, e)
  {
    match e
    case Start(m, now, timeout) => AfterStart(s, m, now, timeout)
    case Receive(msg) => if msg.to in s.managers then AfterManagerMsg(s, msg) else AfterWorkerMsg(s, msg)
    case Answer(m, to) => Put(s, m, HandleGetClusterState(s.managers[m], m, to))
    case Broadcast(m) => AfterBroadcast(s, m)
    case Disconnect(m, id) => Put(s, m, Outcome(HandleDisconnected(s.managers[m], id), {}))
    case Connect(m, id, kind) => Put(s, m, HandleNewConnection(s.managers[m], m, id, kind))
    case Forget(m) => Put(s, m, Outcome(ForgetLeader(s.managers[m], m), {}))
    case WorkerConnect(w, id, kind) =>
      s.(workers := s.workers[w := s.workers[w].(nodes := s.workers[w].nodes[id := kind])], clock := s.clock + 1)
    case WorkerDisconnect(w, id) =>
      s.(workers := s.workers[w := s.workers[w].(nodes := s.workers[w].nodes - {id})], clock := s.clock + 1)
    case ClientReceive(c, msg) =>
      s.(clients := s.clients[c := ClientApply(s.clients[c], msg.epoch, Some(msg.leaderId))], clock := s.clock + 1)
  }

  /** Managers start alone, with epoch zero when they found the cluster and with none
      when they join one; workers and clients know no leader. */
  ghost predicate Init(s: State) {
    && (forall m :: m in s.managers ==>
          && s.managers[m].epoch in {None, Some(0)} && s.managers[m].leader == None
          && s.managers[m].nodes == map[m := ManagerNode] && s.managers[m].elections == map[])
    && (forall w :: w in s.workers ==> s.workers[w].epoch == None && s.workers[w].leader == None)
    && (forall c :: c in s.clients ==> s.clients[c] == Client(0, None))
    && s.msgs == {} && s.births == map[] && s.votes == {} && s.wins == {} && !s.panicked
  }

  // ------------------------------------------------------------------- invariants

  ghost predicate Won(wins: set<Win>, m: NodeId, epoch: nat) {
    exists w :: w in wins && w.winner == m && w.epoch == epoch
  }

  ghost predicate Voted(votes: set<Vote>, voter: NodeId, candidate: NodeId, ts: nat) {
    exists v :: v in votes && v.voter == voter && v.candidate == candidate && v.ts == ts
  }

  ghost predicate BornAt(births: map<(NodeId, nat), Birth>, m: NodeId, ts: nat, epoch: nat) {
    (m, ts) in births && births[(m, ts)].epoch == epoch
  }

  /** At most one election is kept, and a leader is known only with an epoch. */
  ghost predicate ShapeInv(m: Manager) {
    && (forall e, f :: e in m.elections && f in m.elections ==> e == f)
    && (m.leader.Some? ==> m.epoch.Some?)
  }

  /** The election a manager has in progress: it has not voted since the election was
      born, whoever approved it did vote for it, and it aims above every epoch won. */
  ghost predicate ElectionInv(me: NodeId, epoch: nat, el: Election, births: map<(NodeId, nat), Birth>, votes: set<Vote>, wins: set<Win>) {
    match el
    case Mine(ts, approvers) =>
      && BornAt(births, me, ts, epoch)
      && (forall x :: x in approvers ==> Voted(votes, x, me, ts))
      && (forall v :: v in votes && v.voter == me ==> v.time < births[(me, ts)].time)
      && (forall w :: w in wins && w.winner == me ==> w.epoch < epoch)
    case Other(ts, candidate) => Voted(votes, me, candidate, ts)
  }

  ghost predicate ManagerInv(me: NodeId, m: Manager, births: map<(NodeId, nat), Birth>, votes: set<Vote>, wins: set<Win>) {
    && ShapeInv(m)
    && (forall e :: e in m.elections ==> ElectionInv(me, e, m.elections[e], births, votes, wins))
    && (m.epoch.Some? && m.leader.Some? ==> Won(wins, m.leader.value, m.epoch.value))
    && (forall w :: w in wins && w.winner == me ==> m.epoch.Some? && w.epoch <= m.epoch.value)
  }

  ghost predicate MsgInv(msg: Msg, births: map<(NodeId, nat), Birth>, votes: set<Vote>, wins: set<Win>) {
    match msg
    case VoteRequest(from, _, epoch, ts) => BornAt(births, from, ts, epoch)
    case VoteResponse(from, _, leaderId, ts) => Voted(votes, from, leaderId, ts)
    case Leader(from, _, epoch, _) => Won(wins, from, epoch)
    case Snapshot(_, _, epoch, leaderId, _) => Won(wins, leaderId, epoch)
    case GetClusterState(_, _) => true
  }

  ghost predicate VoteInv(v: Vote, births: map<(NodeId, nat), Birth>, clock: nat) {
    BornAt(births, v.candidate, v.ts, v.epoch) && births[(v.candidate, v.ts)].time < v.time < clock
  }

  /** A winner's votes for its own epoch or below are older than the election it won,
      and everyone it knew as a manager when it won voted for that election. */
  ghost predicate WinInv(w: Win, births: map<(NodeId, nat), Birth>, votes: set<Vote>) {
    && BornAt(births, w.winner, w.ts, w.epoch)
    && (forall v :: v in votes && v.voter == w.winner && v.epoch <= w.epoch ==> v.time < births[(w.winner, w.ts)].time)
    && (forall x :: x in w.peers ==> Voted(votes, x, w.winner, w.ts))
  }

  ghost predicate RecordsInv(births: map<(NodeId, nat), Birth>, votes: set<Vote>, wins: set<Win>, clock: nat) {
    && (forall b :: b in births ==> births[b].time < clock)
    && (forall v :: v in votes ==> VoteInv(v, births, clock))
    && (forall w :: w in wins ==> WinInv(w, births, votes))
  }

  ghost predicate ManagersInv(s: State) {
    forall m :: m in s.managers ==> ManagerInv(m, s.managers[m], s.births, s.votes, s.wins)
  }

  ghost predicate MsgsInv(s: State) {
    forall msg :: msg in s.msgs ==> MsgInv(msg, s.births, s.votes, s.wins)
  }

  ghost predicate FollowersInv(s: State) {
    && (forall w :: w in s.workers && s.workers[w].leader.Some? ==>
          s.workers[w].epoch.Some? && Won(s.wins, s.workers[w].leader.value, s.workers[w].epoch.value))
    && (forall c :: c in s.clients && s.clients[c].leader.Some? ==>
          Won(s.wins, s.clients[c].leader.value, s.clients[c].epoch))
  }

  /** Winners are managers. */
  ghost predicate WinnersInv(s: State) {
    forall w :: w in s.wins ==> w.winner in s.managers
  }

  ghost predicate Inv(s: State) {
    && RecordsInv(s.births, s.votes, s.wins, s.clock)
    && ManagersInv(s) && MsgsInv(s) && FollowersInv(s) && WinnersInv(s) && !s.panicked
  }

  // ------------------------------------------------------- steps that record nothing new

  /** A manager that keeps its election and does not lower its epoch, and names a
      leader only if that leader won the epoch it names. */
  ghost predicate Plain(m: Manager, m': Manager, wins: set<Win>) {
    && (m'.elections == m.elections || m'.elections == map[])
    && (m.epoch.Some? ==> m'.epoch.Some? && m.epoch.value <= m'.epoch.value)
    && (m'.leader.Some? ==> m'.epoch.Some? && Won(wins, m'.leader.value, m'.epoch.value))
  }

  lemma PlainKeeps(me: NodeId, m: Manager, m': Manager, births: map<(NodeId, nat), Birth>, votes: set<Vote>, wins: set<Win>)
    requires ManagerInv(me, m, births, votes, wins) && Plain(m, m', wins)
    ensures ManagerInv(me, m', births, votes, wins)
  {
  }

  lemma RecordsAge(s: State)
    requires RecordsInv(s.births, s.votes, s.wins, s.clock)
    ensures RecordsInv(s.births, s.votes, s.wins, s.clock + 1)
  {
    forall v | v in s.votes ensures VoteInv(v, s.births, s.clock + 1) {
      assert VoteInv(v, s.births, s.clock);
    }
  }

  lemma PlainStep(s: State, m: NodeId, o: Outcome)
    requires Inv(s) && m in s.managers && Plain(s.managers[m], o.manager, s.wins)
    requires forall msg :: msg in o.sent ==> MsgInv(msg, s.births, s.votes, s.wins)
    ensures Inv(Put(s, m, o))
  {
    RecordsAge(s);
    PlainKeeps(m, s.managers[m], o.manager, s.births, s.votes, s.wins);
  }

  lemma AnswerPlain(s: State, m: NodeId, to: NodeId)
    requires Inv(s) && m in s.managers
    ensures Inv(Put(s, m, HandleGetClusterState(s.managers[m], m, to)))
  {
    assert ManagerInv(m, s.managers[m], s.births, s.votes, s.wins);
    PlainStep(s, m, HandleGetClusterState(s.managers[m], m, to));
  }

  lemma BroadcastPlain(s: State, m: NodeId)
    requires Inv(s) && m in s.managers && s.managers[m].leader.Some?
    ensures Inv(AfterBroadcast(s, m))
  {
    assert ManagerInv(m, s.managers[m], s.births, s.votes, s.wins);
    var mgr := s.managers[m];
    PlainStep(s, m, Outcome(mgr,
      set n | n in OtherNodes(mgr.nodes, m) :: Snapshot(m, n, mgr.epoch.value, mgr.leader.value, map[])));
  }

  lemma LeaderPlain(s: State, msg: Msg)
    requires Inv(s) && msg in s.msgs && msg.Leader? && msg.to in s.managers
    ensures Inv(AfterManagerMsg(s, msg))
  {
    assert ManagerInv(msg.to, s.managers[msg.to], s.births, s.votes, s.wins);
    assert MsgInv(msg, s.births, s.votes, s.wins);
    PlainStep(s, msg.to, HandleLeader(s.managers[msg.to], msg.to, msg.from, msg.epoch));
  }

  lemma SnapshotPlain(s: State, msg: Msg)
    requires Inv(s) && msg in s.msgs && msg.Snapshot? && msg.to in s.managers
    ensures Inv(AfterManagerMsg(s, msg))
  {
    assert ManagerInv(msg.to, s.managers[msg.to], s.births, s.votes, s.wins);
    assert MsgInv(msg, s.births, s.votes, s.wins);
    PlainStep(s, msg.to, HandleClusterState(s.managers[msg.to], msg.to, msg.epoch, msg.leaderId, msg.nodes));
  }

  lemma StaysPlain(s: State, m: NodeId, m': Manager)
    requires Inv(s) && m in s.managers
    requires m'.epoch == s.managers[m].epoch && m'.elections == s.managers[m].elections
    requires m'.leader == s.managers[m].leader || m'.leader == None
    ensures Plain(s.managers[m], m', s.wins)
  {
    assert ManagerInv(m, s.managers[m], s.births, s.votes, s.wins);
  }

  lemma MembershipPlain(s: State, e: Event)
    requires Inv(s) && Enabled(s, e) && (e.Disconnect? || e.Connect? || e.Forget?)
    ensures Inv(Apply(s, e))
  {
    match e
    case Disconnect(m, id) =>
      StaysPlain(s, m, HandleDisconnected(s.managers[m], id));
      PlainStep(s, m, Outcome(HandleDisconnected(s.managers[m], id), {}));
    case Connect(m, id, kind) =>
      StaysPlain(s, m, HandleNewConnection(s.managers[m], m, id, kind).manager);
      PlainStep(s, m, HandleNewConnection(s.managers[m], m, id, kind));
    case Forget(m) =>
      StaysPlain(s, m, ForgetLeader(s.managers[m], m));
      PlainStep(s, m, Outcome(ForgetLeader(s.managers[m], m), {}));
  }

  // ------------------------------------------------------------- an election is born

  lemma StartStep(s: State, m: NodeId, now: nat, timeout: nat)
    requires Inv(s) && m in s.managers && (m, now) !in s.births
    ensures Inv(AfterStart(s, m, now, timeout))
  {
    var before := s.managers[m];
    assert ManagerInv(m, before, s.births, s.votes, s.wins);
    if Starts(before, now, timeout) {
      BirthKeeps(s, m, now, NextEpoch(before));
      var s1 := s.(births := s.births[(m, now) := Birth(NextEpoch(before), s.clock)], clock := s.clock + 1);
      var o := StartElection(before, m, now, timeout);
      assert AfterStart(s, m, now, timeout) == s1.(managers := s1.managers[m := o.manager], msgs := s1.msgs + o.sent);
      NewElection(s, m, now, o.manager);
    } else {
      PlainStep(s, m, StartElection(before, m, now, timeout));
    }
  }

  /** A new election aims above every epoch its manager has won, after all its votes. */
  lemma NewElection(s: State, m: NodeId, now: nat, m': Manager)
    requires Inv(s) && m in s.managers && s.managers[m].epoch.Some?
    requires m' == s.managers[m].(elections := map[NextEpoch(s.managers[m]) := Mine(now, {})])
    ensures ManagerInv(m, m', s.births[(m, now) := Birth(NextEpoch(s.managers[m]), s.clock)], s.votes, s.wins)
  {
    assert ManagerInv(m, s.managers[m], s.births, s.votes, s.wins);
    assert forall v :: v in s.votes ==> VoteInv(v, s.births, s.clock);
  }

  /** A new timestamp adds a birth and takes no earlier one away. */
  lemma BirthKeeps(s: State, m: NodeId, now: nat, epoch: nat)
    requires Inv(s) && (m, now) !in s.births
    ensures Inv(s.(births := s.births[(m, now) := Birth(epoch, s.clock)], clock := s.clock + 1))
  {
    var births' := s.births[(m, now) := Birth(epoch, s.clock)];
    forall v | v in s.votes ensures VoteInv(v, births', s.clock + 1) {
      assert VoteInv(v, s.births, s.clock);
    }
    forall w | w in s.wins ensures WinInv(w, births', s.votes) {
      assert WinInv(w, s.births, s.votes);
    }
    forall a | a in s.managers ensures ManagerInv(a, s.managers[a], births', s.votes, s.wins) {
      BirthKeepsManager(a, s.managers[a], s.births, births', s.votes, s.wins);
    }
  }

  lemma BirthKeepsManager(
      a: NodeId, m: Manager, births: map<(NodeId, nat), Birth>, births': map<(NodeId, nat), Birth>, votes: set<Vote>, wins: set<Win>)
    requires ManagerInv(a, m, births, votes, wins)
    requires forall b :: b in births ==> b in births' && births'[b] == births[b]
    ensures ManagerInv(a, m, births', votes, wins)
  {
    forall e | e in m.elections ensures ElectionInv(a, e, m.elections[e], births', votes, wins) {
      assert ElectionInv(a, e, m.elections[e], births, votes, wins);
    }
  }

  // ------------------------------------------------------------------ a vote is cast

  lemma VoteKeepsManager(a: NodeId, m: Manager, births: map<(NodeId, nat), Birth>, votes: set<Vote>, wins: set<Win>, v: Vote)
    requires ManagerInv(a, m, births, votes, wins) && v.voter != a
    ensures ManagerInv(a, m, births, votes + {v}, wins)
  {
    forall e | e in m.elections ensures ElectionInv(a, e, m.elections[e], births, votes + {v}, wins) {
      assert ElectionInv(a, e, m.elections[e], births, votes, wins);
      VotedGrows(votes, v);
    }
  }

  lemma VotedGrows(votes: set<Vote>, v: Vote)
    ensures forall x, c, ts: nat :: Voted(votes, x, c, ts) ==> Voted(votes + {v}, x, c, ts)
    ensures Voted(votes + {v}, v.voter, v.candidate, v.ts)
  {
    assert v in votes + {v};
    forall x, c, ts: nat | Voted(votes, x, c, ts) ensures Voted(votes + {v}, x, c, ts) {
      var u :| u in votes && u.voter == x && u.candidate == c && u.ts == ts;
      assert u in votes + {v};
    }
  }

  lemma VoteKeepsRecords(births: map<(NodeId, nat), Birth>, votes: set<Vote>, wins: set<Win>, clock: nat, v: Vote)
    requires RecordsInv(births, votes, wins, clock)
    requires v.time == clock && BornAt(births, v.candidate, v.ts, v.epoch)
    requires forall w :: w in wins && w.winner == v.voter ==> w.epoch < v.epoch
    ensures RecordsInv(births, votes + {v}, wins, clock + 1)
  {
    forall u | u in votes + {v} ensures VoteInv(u, births, clock + 1) {
      if u != v { assert VoteInv(u, births, clock); }
    }
    VotedGrows(votes, v);
    forall w | w in wins ensures WinInv(w, births, votes + {v}) {
      assert WinInv(w, births, votes);
    }
  }

  lemma VoteRequestStep(s: State, msg: Msg)
    requires Inv(s) && msg in s.msgs && msg.VoteRequest? && msg.to in s.managers
    ensures Inv(AfterVoteRequest(s, msg))
  {
    var me, before := msg.to, s.managers[msg.to];
    assert ManagerInv(me, before, s.births, s.votes, s.wins);
    assert MsgInv(msg, s.births, s.votes, s.wins);
    var o := HandleVoteRequest(before, me, msg.from, msg.epoch, msg.ts);
    if Grants(before, msg.epoch, msg.ts) {
      VoteGranted(s, msg);
    } else {
      PlainStep(s, me, o);
    }
  }

  lemma VoteGranted(s: State, msg: Msg)
    requires Inv(s) && msg in s.msgs && msg.VoteRequest? && msg.to in s.managers
    requires Grants(s.managers[msg.to], msg.epoch, msg.ts)
    ensures Inv(AfterVoteRequest(s, msg))
  {
    var me := msg.to;
    var v := Vote(me, msg.from, msg.ts, msg.epoch, s.clock);
    var s' := AfterVoteRequest(s, msg);
    assert ManagerInv(me, s.managers[me], s.births, s.votes, s.wins);
    assert MsgInv(msg, s.births, s.votes, s.wins);
    VoteKeepsRecords(s.births, s.votes, s.wins, s.clock, v);
    VotedGrows(s.votes, v);
    forall a | a in s'.managers ensures ManagerInv(a, s'.managers[a], s'.births, s'.votes, s'.wins) {
      if a != me { VoteKeepsManager(a, s.managers[a], s.births, s.votes, s.wins, v); }
    }
    forall x | x in s'.msgs ensures MsgInv(x, s'.births, s'.votes, s'.wins) {
      if x in s.msgs { assert MsgInv(x, s.births, s.votes, s.wins); }
    }
  }

  // --------------------------------------------------------------- an election is won

  lemma WonGrows(wins: set<Win>, w: Win)
    ensures forall m, e: nat :: Won(wins, m, e) ==> Won(wins + {w}, m, e)
    ensures Won(wins + {w}, w.winner, w.epoch)
  {
    assert w in wins + {w};
    forall m, e: nat | Won(wins, m, e) ensures Won(wins + {w}, m, e) {
      var u :| u in wins && u.winner == m && u.epoch == e;
      assert u in wins + {w};
    }
  }

  lemma WinKeepsManager(a: NodeId, m: Manager, births: map<(NodeId, nat), Birth>, votes: set<Vote>, wins: set<Win>, w: Win)
    requires ManagerInv(a, m, births, votes, wins) && w.winner != a
    ensures ManagerInv(a, m, births, votes, wins + {w})
  {
    WonGrows(wins, w);
    forall e | e in m.elections ensures ElectionInv(a, e, m.elections[e], births, votes, wins + {w}) {
      assert ElectionInv(a, e, m.elections[e], births, votes, wins);
    }
  }

  lemma VoteResponseStep(s: State, msg: Msg)
    requires Inv(s) && msg in s.msgs && msg.VoteResponse? && msg.to in s.managers
    ensures Inv(AfterVoteResponse(s, msg))
  {
    var me, before := msg.to, s.managers[msg.to];
    assert ManagerInv(me, before, s.births, s.votes, s.wins);
    assert MsgInv(msg, s.births, s.votes, s.wins);
    if Elects(before, me, msg.from, msg.leaderId, msg.ts) {
      Elected(s, msg);
    } else if Approves(before, me, msg.leaderId, msg.ts) {
      Approved(s, msg);
    } else {
      PlainStep(s, me, HandleVoteResponse(before, me, msg.from, msg.leaderId, msg.ts));
    }
  }

  lemma Approved(s: State, msg: Msg)
    requires Inv(s) && msg in s.msgs && msg.VoteResponse? && msg.to in s.managers
    requires Approves(s.managers[msg.to], msg.to, msg.leaderId, msg.ts)
    requires !Elects(s.managers[msg.to], msg.to, msg.from, msg.leaderId, msg.ts)
    ensures Inv(AfterVoteResponse(s, msg))
  {
    var me, before := msg.to, s.managers[msg.to];
    assert ManagerInv(me, before, s.births, s.votes, s.wins);
    assert MsgInv(msg, s.births, s.votes, s.wins);
    var epoch := LastEpoch(before.elections);
    assert ElectionInv(me, epoch, before.elections[epoch], s.births, s.votes, s.wins);
    RecordsAge(s);
    var after := HandleVoteResponse(before, me, msg.from, msg.leaderId, msg.ts).manager;
    assert ManagerInv(me, after, s.births, s.votes, s.wins) by {
      assert forall e :: e in after.elections ==> e == epoch;
    }
  }

  lemma Elected(s: State, msg: Msg)
    requires Inv(s) && msg in s.msgs && msg.VoteResponse? && msg.to in s.managers
    requires Elects(s.managers[msg.to], msg.to, msg.from, msg.leaderId, msg.ts)
    ensures Inv(AfterVoteResponse(s, msg))
  {
    var me, before := msg.to, s.managers[msg.to];
    var s' := AfterVoteResponse(s, msg);
    var epoch := LastEpoch(before.elections);
    var w := Win(me, epoch, msg.ts, OtherManagers(before.nodes, me));
    assert ManagerInv(me, before, s.births, s.votes, s.wins);
    assert ElectionInv(me, epoch, before.elections[epoch], s.births, s.votes, s.wins);
    assert MsgInv(msg, s.births, s.votes, s.wins);
    assert WinInv(w, s.births, s.votes);
    RecordsAge(s);
    WonGrows(s.wins, w);
    forall a | a in s'.managers ensures ManagerInv(a, s'.managers[a], s'.births, s'.votes, s'.wins) {
      if a != me { WinKeepsManager(a, s.managers[a], s.births, s.votes, s.wins, w); }
    }
    forall x | x in s'.msgs ensures MsgInv(x, s'.births, s'.votes, s'.wins) {
      if x in s.msgs { assert MsgInv(x, s.births, s.votes, s.wins); }
    }
  }

  // -------------------------------------------------------------- workers and clients

  lemma WorkerHears(s: State, msg: Msg)
    requires Inv(s) && msg in s.msgs && msg.to in s.workers
    ensures Inv(AfterWorkerMsg(s, msg))
  {
    RecordsAge(s);
    assert MsgInv(msg, s.births, s.votes, s.wins);
  }

  lemma FollowerStep(s: State, e: Event)
    requires Inv(s) && Enabled(s, e)
    requires e.WorkerConnect? || e.WorkerDisconnect? || e.ClientReceive?
    ensures Inv(Apply(s, e))
  {
    RecordsAge(s);
    if e.ClientReceive? {
      assert MsgInv(e.msg, s.births, s.votes, s.wins);
    }
  }

  lemma StepKeepsInv(s: State, e: Event)
    requires Inv(s) && Enabled(s, e)
    ensures Inv(Apply(s, e))
  {
    match e
    case Start(m, now, timeout) => StartStep(s, m, now, timeout);
    case Receive(msg) =>
      if msg.to !in s.managers {
        WorkerHears(s, msg);
      } else {
        match msg
        case VoteRequest(_, _, _, _) => VoteRequestStep(s, msg);
        case VoteResponse(_, _, _, _) => VoteResponseStep(s, msg);
        case Leader(_, _, _, _) => LeaderPlain(s, msg);
        case Snapshot(_, _, _, _, _) => SnapshotPlain(s, msg);
        case GetClusterState(from, _) => AnswerPlain(s, msg.to, from);
      }
    case Answer(m, to) => AnswerPlain(s, m, to);
    case Broadcast(m) => BroadcastPlain(s, m);
    case Disconnect(_, _) => MembershipPlain(s, e);
    case Connect(_, _, _) => MembershipPlain(s, e);
    case Forget(_) => MembershipPlain(s, e);
    case WorkerConnect(_, _, _) => FollowerStep(s, e);
    case WorkerDisconnect(_, _) => FollowerStep(s, e);
    case ClientReceive(_, _) => FollowerStep(s, e);
  }

  // -------------------------------------------------------------------- whole runs

  ghost predicate Legal(s: State, events: seq<Event>)
    decreases |events|
  {
    events == [] || (Enabled(s, events[0]) && Legal(Apply(s, events[0]), events[1..]))
  }

  ghost function After(s: State, events: seq<Event>): State
    requires Legal(s, events)
    decreases |events|
  {
    if events == [] then s else After(Apply(s, events[0]), events[1..])
  }

  lemma {:induction false} RunKeepsInv(s: State, events: seq<Event>)
    requires Inv(s) && Legal(s, events)
    ensures Inv(After(s, events))
    decreases |events|
  {
    if events != [] {
      StepKeepsInv(s, events[0]);
      RunKeepsInv(Apply(s, events[0]), events[1..]);
    }
  }

  lemma InitHoldsInv(s: State)
    requires Init(s)
    ensures Inv(s)
  {
  }

  /** Nothing recorded is ever taken back. */
  ghost predicate Extends(s: State, s': State) {
    && s.wins <= s'.wins && s.votes <= s'.votes && s.clock <= s'.clock
    && s'.managers.Keys == s.managers.Keys
    && (forall b :: b in s.births ==> b in s'.births && s'.births[b] == s.births[b])
    && (forall v :: v in s'.votes && v !in s.votes ==> s.clock <= v.time)
  }

  lemma VotingExtends(s: State, msg: Msg)
    requires msg.to in s.managers && (msg.VoteRequest? || msg.VoteResponse?)
    ensures Extends(s, AfterManagerMsg(s, msg))
  {
    if msg.VoteRequest? {
      assert Extends(s, AfterVoteRequest(s, msg));
    } else {
      assert Extends(s, AfterVoteResponse(s, msg));
    }
  }

  lemma PutExtends(s: State, m: NodeId, o: Outcome)
    requires m in s.managers
    ensures Extends(s, Put(s, m, o))
  {
  }

  lemma StartExtends(s: State, m: NodeId, now: nat, timeout: nat)
    requires m in s.managers && (m, now) !in s.births
    ensures Extends(s, AfterStart(s, m, now, timeout))
  {
  }

  lemma StepExtends(s: State, e: Event)
    requires Enabled(s, e)
    ensures Extends(s, Apply(s, e))
  {
    match e
    case Start(m, now, timeout) => StartExtends(s, m, now, timeout);
    case Receive(msg) =>
      if msg.to in s.managers {
        var me, m := msg.to, s.managers[msg.to];
        match msg
        case Leader(from, _, epoch, _) => PutExtends(s, me, HandleLeader(m, me, from, epoch));
        case Snapshot(_, _, epoch, id, nodes) => PutExtends(s, me, HandleClusterState(m, me, epoch, id, nodes));
        case GetClusterState(from, _) => PutExtends(s, me, HandleGetClusterState(m, me, from));
        case _ => VotingExtends(s, msg);
      }
    case Answer(m, to) => PutExtends(s, m, HandleGetClusterState(s.managers[m], m, to));
    case Broadcast(m) =>
    case Disconnect(m, id) => PutExtends(s, m, Outcome(HandleDisconnected(s.managers[m], id), {}));
    case Connect(m, id, kind) => PutExtends(s, m, HandleNewConnection(s.managers[m], m, id, kind));
    case Forget(m) => PutExtends(s, m, Outcome(ForgetLeader(s.managers[m], m), {}));
    case _ =>
  }

  lemma {:induction false} RunExtends(s: State, events: seq<Event>)
    requires Legal(s, events)
    ensures Extends(s, After(s, events))
    decreases |events|
  {
    if events != [] {
      StepExtends(s, events[0]);
      RunExtends(Apply(s, events[0]), events[1..]);
    }
  }
}

/** What elections guarantee over every run, and what they do not. */
module ElectionTheorems {
  import opened Common
  import opened ElectionModel
  import opened ElectionRuns

  /** One winner per epoch: of two managers that won the same epoch, one did not know
      the other as a manager when it won. Each vote follows the birth of the election
      it approves and precedes the birth of the voter's own, so two mutual votes
      would put each birth before the other. */
  lemma OneWinnerPerEpoch(s0: State, events: seq<Event>, a: Win, b: Win)
    requires Init(s0) && Legal(s0, events)
    requires a in After(s0, events).wins && b in After(s0, events).wins && a.epoch == b.epoch
    ensures a.winner == b.winner || b.winner !in a.peers || a.winner !in b.peers
  {
    InitHoldsInv(s0);
    RunKeepsInv(s0, events);
    var s := After(s0, events);
    WinnersKnownApart(s, a, b);
  }

  lemma WinnersKnownApart(s: State, a: Win, b: Win)
    requires RecordsInv(s.births, s.votes, s.wins, s.clock)
    requires a in s.wins && b in s.wins && a.epoch == b.epoch
    ensures b.winner !in a.peers || a.winner !in b.peers
  {
    if b.winner in a.peers && a.winner in b.peers {
      BirthPrecedes(s, a, b);
      BirthPrecedes(s, b, a);
    }
  }

  /** A winner known to another winner of its epoch gave it its vote, after the birth
      of the election it approved and before the birth of its own. */
  lemma BirthPrecedes(s: State, a: Win, b: Win)
    requires RecordsInv(s.births, s.votes, s.wins, s.clock)
    requires a in s.wins && b in s.wins && a.epoch == b.epoch && b.winner in a.peers
    ensures BornAt(s.births, a.winner, a.ts, a.epoch) && BornAt(s.births, b.winner, b.ts, b.epoch)
    ensures s.births[(a.winner, a.ts)].time < s.births[(b.winner, b.ts)].time
  {
    assert WinInv(a, s.births, s.votes) && WinInv(b, s.births, s.votes);
    var v :| v in s.votes && v.voter == b.winner && v.candidate == a.winner && v.ts == a.ts;
    assert VoteInv(v, s.births, s.clock);
  }

  /** A participant that follows a leader, with the epoch it follows it in. */
  ghost predicate Follows(s: State, epoch: nat, leader: NodeId) {
    || (exists m :: m in s.managers && s.managers[m].epoch == Some(epoch) && s.managers[m].leader == Some(leader))
    || (exists w :: w in s.workers && s.workers[w].epoch == Some(epoch) && s.workers[w].leader == Some(leader))
    || (exists c :: c in s.clients && s.clients[c] == Client(epoch, Some(leader)))
  }

  /** Whoever is followed as a leader in an epoch is a manager that won that epoch. */
  lemma FollowedLeadersWon(s0: State, events: seq<Event>, epoch: nat, leader: NodeId)
    requires Init(s0) && Legal(s0, events) && Follows(After(s0, events), epoch, leader)
    ensures Won(After(s0, events).wins, leader, epoch) && leader in After(s0, events).managers
  {
    InitHoldsInv(s0);
    RunKeepsInv(s0, events);
    var s := After(s0, events);
    if m :| m in s.managers && s.managers[m].epoch == Some(epoch) && s.managers[m].leader == Some(leader) {
      assert ManagerInv(m, s.managers[m], s.births, s.votes, s.wins);
    }
    assert Won(s.wins, leader, epoch);
    var w :| w in s.wins && w.winner == leader && w.epoch == epoch;
  }

  /** Every winner knew every other winner as a manager when it won. */
  ghost predicate WinnersKnowEachOther(s: State) {
    forall a, b :: a in s.wins && b in s.wins && a.winner != b.winner ==> b.winner in a.peers
  }

  /** Leader agreement: when winners know each other, no two managers, workers or
      clients at one epoch follow different leaders. */
  lemma LeaderAgreement(s0: State, events: seq<Event>, epoch: nat, x: NodeId, y: NodeId)
    requires Init(s0) && Legal(s0, events) && WinnersKnowEachOther(After(s0, events))
    requires Follows(After(s0, events), epoch, x) && Follows(After(s0, events), epoch, y)
    ensures x == y
  {
    FollowedLeadersWon(s0, events, epoch, x);
    FollowedLeadersWon(s0, events, epoch, y);
    var s := After(s0, events);
    var a :| a in s.wins && a.winner == x && a.epoch == epoch;
    var b :| b in s.wins && b.winner == y && b.epoch == epoch;
    OneWinnerPerEpoch(s0, events, a, b);
  }

  /** A winner's epoch floor: having won an epoch, a manager never again holds a lower
      one, and never again votes for that epoch or a lower one. */
  lemma WinnersKeepTheirFloor(s0: State, before: seq<Event>, after: seq<Event>, w: Win, v: Vote)
    requires Init(s0) && Legal(s0, before) && Legal(After(s0, before), after)
    requires w in After(s0, before).wins
    ensures var s := After(After(s0, before), after);
      && w.winner in s.managers
      && s.managers[w.winner].epoch.Some? && w.epoch <= s.managers[w.winner].epoch.value
      && (v in s.votes && v !in After(s0, before).votes && v.voter == w.winner ==> w.epoch < v.epoch)
  {
    InitHoldsInv(s0);
    RunKeepsInv(s0, before);
    var mid := After(s0, before);
    RunKeepsInv(mid, after);
    RunExtends(mid, after);
    var s := After(mid, after);
    assert ManagerInv(w.winner, s.managers[w.winner], s.births, s.votes, s.wins);
    assert WinInv(w, s.births, s.votes);
    assert WinInv(w, mid.births, mid.votes);
  }

  /** A manager keeps at most one election, knows a leader only with an epoch, and
      the leader's broadcast never finds an epoch missing. */
  lemma ManagersStayInShape(s0: State, events: seq<Event>, m: NodeId)
    requires Init(s0) && Legal(s0, events) && m in After(s0, events).managers
    ensures var s := After(s0, events);
      && !s.panicked
      && |s.managers[m].elections| <= 1
      && (s.managers[m].leader.Some? ==> s.managers[m].epoch.Some?)
  {
    InitHoldsInv(s0);
    RunKeepsInv(s0, events);
    var s := After(s0, events);
    assert ManagerInv(m, s.managers[m], s.births, s.votes, s.wins);
    AtMostOne(s.managers[m].elections);
  }

  lemma AtMostOne(elections: map<nat, Election>)
    requires forall e, f :: e in elections && f in elections ==> e == f
    ensures |elections| <= 1
  {
    if elections != map[] {
      var e :| e in elections;
      assert elections.Keys == {e};
      assert |elections| == |elections.Keys|;
    }
  }

  // ---------------------------------------------- without mutual knowledge: two winners

  const ALICE: NodeId := 1
  const BOB: NodeId := 2
  const CAROL: NodeId := 3

  function Founder(m: NodeId): Manager {
    Manager(Some(0), None, map[m := ManagerNode], map[])
  }

  lemma Knows(m: NodeId, nodes: map<NodeId, Kind>)
    requires nodes == map[m := ManagerNode][CAROL := ManagerNode] && m != CAROL
    ensures OtherManagers(nodes, m) == {CAROL} && OtherNodes(nodes, m) == {CAROL} && |nodes| == 2
  {
    assert nodes.Keys == {m, CAROL};
    assert |nodes| == |nodes.Keys|;
  }

  lemma Extend(s0: State, events: seq<Event>, s: State, e: Event) returns (events': seq<Event>, s': State)
    requires Legal(s0, events) && After(s0, events) == s && Enabled(s, e)
    ensures events' == events + [e] && s' == Apply(s, e)
    ensures Legal(s0, events') && After(s0, events') == s'
  {
    events', s' := events + [e], Apply(s, e);
    Appended(s0, events, e);
  }

  lemma {:induction false} Appended(s0: State, events: seq<Event>, e: Event)
    requires Legal(s0, events) && Enabled(After(s0, events), e)
    ensures Legal(s0, events + [e]) && After(s0, events + [e]) == Apply(After(s0, events), e)
    decreases |events|
  {
    if events == [] {
      assert [] + [e] == [e];
    } else {
      assert (events + [e])[1..] == events[1..] + [e];
      Appended(Apply(s0, events[0]), events[1..], e);
    }
  }

  const UNDECIDED := Manager(None, None, map[CAROL := ManagerNode], map[])

  function Acquainted(m: NodeId): map<NodeId, Kind> {
    map[m := ManagerNode][CAROL := ManagerNode]
  }

  function Candidate(m: NodeId, ts: nat): Manager {
    Manager(Some(0), None, Acquainted(m), map[1 := Mine(ts, {})])
  }

  lemma Stands(s: State, m: NodeId, ts: nat)
    requires m in s.managers && s.managers[m] == Founder(m).(nodes := Acquainted(m)) && m != CAROL && (m, ts) !in s.births
    ensures Enabled(s, Start(m, ts, 500))
    ensures var s' := Apply(s, Start(m, ts, 500));
      && s'.managers == s.managers[m := Candidate(m, ts)] && s'.births.Keys == s.births.Keys + {(m, ts)}
      && s'.msgs == s.msgs + {VoteRequest(m, CAROL, 1, ts)}
  {
    Knows(m, s.managers[m].nodes);
  }

  lemma Meets(s: State, m: NodeId)
    requires m in s.managers && s.managers[m] == Founder(m)
    ensures Enabled(s, Connect(m, CAROL, ManagerNode))
    ensures var s' := Apply(s, Connect(m, CAROL, ManagerNode));
      s'.managers == s.managers[m := Founder(m).(nodes := Acquainted(m))] && s'.births == s.births
  {
  }

  /** The founders know CAROL and not each other. */
  lemma Founders() returns (s0: State, events: seq<Event>, s: State)
    ensures Init(s0) && Legal(s0, events) && After(s0, events) == s && s.births == map[]
    ensures {ALICE, BOB, CAROL} <= s.managers.Keys && s.managers[CAROL] == UNDECIDED
    ensures s.managers[ALICE] == Founder(ALICE).(nodes := Acquainted(ALICE))
    ensures s.managers[BOB] == Founder(BOB).(nodes := Acquainted(BOB))
  {
    s0 := State(map[ALICE := Founder(ALICE), BOB := Founder(BOB), CAROL := UNDECIDED],
                map[], map[], {}, map[], {}, {}, 0, false);
    events, s := [], s0;
    Meets(s, ALICE);
    events, s := Extend(s0, events, s, Connect(ALICE, CAROL, ManagerNode));
    Meets(s, BOB);
    events, s := Extend(s0, events, s, Connect(BOB, CAROL, ManagerNode));
  }

  /** BOB's election is born after ALICE's but stamped earlier by BOB's clock. */
  lemma Candidates() returns (s0: State, events: seq<Event>, s: State)
    ensures Init(s0) && Legal(s0, events) && After(s0, events) == s
    ensures {ALICE, BOB, CAROL} <= s.managers.Keys && s.managers[CAROL] == UNDECIDED
    ensures s.managers[ALICE] == Candidate(ALICE, 10) && s.managers[BOB] == Candidate(BOB, 5)
    ensures VoteRequest(ALICE, CAROL, 1, 10) in s.msgs && VoteRequest(BOB, CAROL, 1, 5) in s.msgs
  {
    s0, events, s := Founders();
    Stands(s, ALICE, 10);
    events, s := Extend(s0, events, s, Start(ALICE, 10, 500));
    Stands(s, BOB, 5);
    events, s := Extend(s0, events, s, Start(BOB, 5, 500));
  }

  lemma VotesFor(s: State, m: NodeId, ts: nat)
    requires VoteRequest(m, CAROL, 1, ts) in s.msgs && CAROL in s.managers && s.managers[CAROL].epoch == None
    requires forall e :: e in s.managers[CAROL].elections ==> e == 1 && ts < s.managers[CAROL].elections[e].ts
    ensures Enabled(s, Receive(VoteRequest(m, CAROL, 1, ts)))
    ensures var s' := Apply(s, Receive(VoteRequest(m, CAROL, 1, ts)));
      && s'.managers == s.managers[CAROL := s.managers[CAROL].(elections := map[1 := Other(ts, m)])]
      && s'.msgs == s.msgs + {VoteResponse(CAROL, m, m, ts)}
  {
    assert Grants(s.managers[CAROL], 1, ts);
  }

  /** CAROL votes for ALICE and then, in the same epoch, for BOB. */
  lemma TwoVotes() returns (s0: State, events: seq<Event>, s: State)
    ensures Init(s0) && Legal(s0, events) && After(s0, events) == s
    ensures {ALICE, BOB} <= s.managers.Keys
    ensures s.managers[ALICE] == Candidate(ALICE, 10) && s.managers[BOB] == Candidate(BOB, 5)
    ensures VoteResponse(CAROL, ALICE, ALICE, 10) in s.msgs && VoteResponse(CAROL, BOB, BOB, 5) in s.msgs
  {
    s0, events, s := Candidates();
    VotesFor(s, ALICE, 10);
    events, s := Extend(s0, events, s, Receive(VoteRequest(ALICE, CAROL, 1, 10)));
    VotesFor(s, BOB, 5);
    events, s := Extend(s0, events, s, Receive(VoteRequest(BOB, CAROL, 1, 5)));
  }

  lemma IsElected(s: State, me: NodeId, ts: nat)
    requires me in s.managers && s.managers[me] == Candidate(me, ts) && me != CAROL
    requires VoteResponse(CAROL, me, me, ts) in s.msgs
    ensures Enabled(s, Receive(VoteResponse(CAROL, me, me, ts)))
    ensures var s' := Apply(s, Receive(VoteResponse(CAROL, me, me, ts)));
      && Win(me, 1, ts, OtherManagers(Acquainted(me), me)) in s'.wins && s.wins <= s'.wins && s.msgs <= s'.msgs
      && s'.managers.Keys == s.managers.Keys && forall n :: n in s.managers && n != me ==> s'.managers[n] == s.managers[n]
  {
    Knows(me, s.managers[me].nodes);
    assert LastEpoch(s.managers[me].elections) in s.managers[me].elections;
    assert {} + {CAROL} == {CAROL};
    assert Elects(s.managers[me], me, CAROL, me, ts);
  }

  /** Without mutual knowledge the guarantee ends: a run in which a voter that both
      candidates know, and that votes for both, gives one epoch two winners. */
  lemma TwoWinnersWithoutMutualKnowledge()
    ensures exists s0, events, a, b ::
      && Init(s0) && Legal(s0, events)
      && a in After(s0, events).wins && b in After(s0, events).wins
      && a.epoch == b.epoch && a.winner != b.winner
  {
    var s0, events, s := TwoVotes();
    IsElected(s, ALICE, 10);
    events, s := Extend(s0, events, s, Receive(VoteResponse(CAROL, ALICE, ALICE, 10)));
    IsElected(s, BOB, 5);
    events, s := Extend(s0, events, s, Receive(VoteResponse(CAROL, BOB, BOB, 5)));
    var a, b := Win(ALICE, 1, 10, OtherManagers(Acquainted(ALICE), ALICE)), Win(BOB, 1, 5, OtherManagers(Acquainted(BOB), BOB));
    assert a in After(s0, events).wins && b in After(s0, events).wins;
  }
}
