/** The worker's service as it updates its own state in place. One call runs to its
    end here; the effect of clients between its store calls is the subject of the
    migration's step-by-step model, of which each call is an undisturbed run. */
module WorkerSync {
  import opened Common
  import opened Outbox
  import opened StoreModel
  import opened RuntimeStores
  import opened SyncModel
  import opened TickModel
  import opened Receiving
  import opened Topology
  import Electing = ElectionModel
  import Model = Migration
  import TickRuns
  import Marking = CompletionMarks

  type Kind = Electing.Kind

  datatype Out =
    | SyncBatch(recipient: NodeId, records: seq<Wire>)
    | SyncBatchResponse(recipient: NodeId, reply: map<PartitionId, Key>)
    | RemovePartitionFromReplica(leader: NodeId, replica: NodeId, p: PartitionId)
    | GetClusterState(manager: NodeId)
    | NewConnection(node: NodeId, kind: Kind)

  function RunsOf(sync: map<PartitionId, Runs>, p: PartitionId): Runs {
    if p in sync then sync[p] else map[]
  }

  function InProgress(sync: map<PartitionId, Runs>): map<PartitionId, Runs> {
    map p | p in sync && sync[p] != map[] :: sync[p]
  }

  function Sent(n: NodeId, batch: Option<seq<Wire>>): seq<Out> {
    if batch.Some? then [SyncBatch(n, batch.value)] else []
  }

  /** The leader is told of each completed recipient. */
  function Notice(leader: Option<NodeId>, me: NodeId, p: PartitionId, completed: bool): seq<Out> {
    if completed && leader.Some? then [RemovePartitionFromReplica(leader.value, me, p)] else []
  }

  /** What serving recipients works on. */
  datatype Bench = Bench(sync: map<PartitionId, Runs>, output: seq<Out>, marked: Marking.Worker)

  /** Serving one recipient, whose job ends as `end`: its run and nobody else's changes,
      its batch is sent, and a completion is marked and reported. */
  function ServedOne(b: Bench, n: NodeId, end: Local, leader: Option<NodeId>, me: NodeId, p: PartitionId): Bench {
    Bench(b.sync[p := WithRun(RunsOf(b.sync, p), n, end.state)],
          b.output + Sent(n, end.sent) + Notice(leader, me, p, Completes(end)),
          if Completes(end) then Marking.Completed(b.marked, me, p, n) else b.marked)
  }

  lemma ServedOneIs(b: Bench, after: Bench, n: NodeId, end: Local, leader: Option<NodeId>, me: NodeId, p: PartitionId)
    requires after.sync == b.sync[p := RunsOf(b.sync, p)][p := WithRun(RunsOf(b.sync, p), n, end.state)]
    requires after.output == b.output + Sent(n, end.sent) + Notice(leader, me, p, Completes(end))
    requires after.marked == if Completes(end) then Marking.Completed(b.marked, me, p, n) else b.marked
    ensures after == ServedOne(b, n, end, leader, me, p)
  {
  }

  /** Recipients that left the cluster are dropped from a partition's runs. */
  function Retained(b: Bench, p: PartitionId, nodes: set<NodeId>): Bench {
    if p in b.sync then b.(sync := b.sync[p := Connected(b.sync[p], nodes)]) else b
  }

  /** `order` lists the members of `done`, each once. */
  ghost predicate IsOrder(order: seq<NodeId>, done: set<NodeId>) {
    if order == [] then done == {}
    else order[|order| - 1] in done && IsOrder(order[..|order| - 1], done - {order[|order| - 1]})
  }

  lemma IsOrderNext(order: seq<NodeId>, done: set<NodeId>, n: NodeId)
    requires IsOrder(order, done) && n !in done
    ensures IsOrder(order + [n], done + {n})
  {
    assert (order + [n])[..|order|] == order && done + {n} - {n} == done;
  }

  lemma {:induction false} OrderLists(order: seq<NodeId>, done: set<NodeId>)
    requires IsOrder(order, done)
    ensures |order| == |done| && forall n :: n in order <==> n in done
  {
    if order != [] {
      var n, front := order[|order| - 1], order[..|order| - 1];
      OrderLists(front, done - {n});
      assert order == front + [n];
    }
  }

  /** How the job of a recipient ends; there is none for others. */
  function EndOf(ends: Ends, n: NodeId): Local {
    if n in ends then ends[n] else Local(Finished(false), None, None)
  }

  /** Serving the recipients in this order. */
  function ServedAll(b: Bench, order: seq<NodeId>, ends: Ends, leader: Option<NodeId>, me: NodeId, p: PartitionId): Bench {
    if order == [] then b
    else
      var n := order[|order| - 1];
      ServedOne(ServedAll(b, order[..|order| - 1], ends, leader, me, p), n, EndOf(ends, n), leader, me, p)
  }

  lemma ServedNext(b: Bench, order: seq<NodeId>, n: NodeId, ends: Ends, leader: Option<NodeId>, me: NodeId, p: PartitionId)
    ensures ServedAll(b, order + [n], ends, leader, me, p) ==
      ServedOne(ServedAll(b, order, ends, leader, me, p), n, EndOf(ends, n), leader, me, p)
  {
    assert (order + [n])[..|order|] == order;
  }

  ghost predicate RunsServed(before: map<PartitionId, Runs>, after: map<PartitionId, Runs>, ends: Ends, served: set<NodeId>, p: PartitionId) {
    && served <= ends.Keys
    && after == if served == {} then before else before[p := RunsAfter(RunsOf(before, p), ends, served)]
  }

  lemma RunsServedMore(
      before: map<PartitionId, Runs>, middle: map<PartitionId, Runs>, ends: Ends, served: set<NodeId>, p: PartitionId, n: NodeId)
    requires RunsServed(before, middle, ends, served, p)
    requires n in ends && n !in served && KeepsRuns(RunsOf(before, p), ends)
    ensures RunOf(RunsOf(middle, p), n) == RunOf(RunsOf(before, p), n)
    ensures RunsServed(before, middle[p := WithRun(RunsOf(middle, p), n, ends[n].state)], ends, served + {n}, p)
  {
    var runs := RunsOf(before, p);
    assert RunsAfter(runs, ends, {}) == runs;
    assert RunsOf(middle, p) == RunsAfter(runs, ends, served);
    ServingOneMore(runs, ends, served, n);
    assert middle[p := RunsAfter(runs, ends, served + {n})] == before[p := RunsAfter(runs, ends, served + {n})];
  }

  /** The order in which recipients are served does not matter to their runs. */
  lemma {:induction false} ServedRuns(
      b: Bench, order: seq<NodeId>, done: set<NodeId>, ends: Ends, leader: Option<NodeId>, me: NodeId, p: PartitionId)
    requires IsOrder(order, done) && done <= ends.Keys && KeepsRuns(RunsOf(b.sync, p), ends)
    ensures RunsServed(b.sync, ServedAll(b, order, ends, leader, me, p).sync, ends, done, p)
  {
    if order != [] {
      var n, front := order[|order| - 1], order[..|order| - 1];
      ServedRuns(b, front, done - {n}, ends, leader, me, p);
      RunsServedMore(b.sync, ServedAll(b, front, ends, leader, me, p).sync, ends, done - {n}, p, n);
      assert done - {n} + {n} == done;
    }
  }

  lemma NotYetServed(
      b: Bench, order: seq<NodeId>, done: set<NodeId>, n: NodeId, ends: Ends, leader: Option<NodeId>, me: NodeId, p: PartitionId)
    requires IsOrder(order, done) && done <= ends.Keys && KeepsRuns(RunsOf(b.sync, p), ends)
    requires n in ends && n !in done
    ensures RunOf(RunsOf(ServedAll(b, order, ends, leader, me, p).sync, p), n) == RunOf(RunsOf(b.sync, p), n)
  {
    ServedRuns(b, order, done, ends, leader, me, p);
    RunsServedMore(b.sync, ServedAll(b, order, ends, leader, me, p).sync, ends, done, p, n);
  }

  /** Which completions serving the recipients in this order marks. */
  function Completions(order: seq<NodeId>, ends: Ends, p: PartitionId): seq<Marking.Event> {
    if order == [] then []
    else
      var n := order[|order| - 1];
      Completions(order[..|order| - 1], ends, p) + if Completes(EndOf(ends, n)) then [Marking.Complete(p, n)] else []
  }

  /** What it sends. */
  function Said(order: seq<NodeId>, ends: Ends, leader: Option<NodeId>, me: NodeId, p: PartitionId): seq<Out> {
    if order == [] then []
    else
      var n := order[|order| - 1];
      var end := EndOf(ends, n);
      Said(order[..|order| - 1], ends, leader, me, p) + Sent(n, end.sent) + Notice(leader, me, p, Completes(end))
  }

  lemma {:induction false} ServedSays(b: Bench, order: seq<NodeId>, ends: Ends, leader: Option<NodeId>, me: NodeId, p: PartitionId)
    ensures ServedAll(b, order, ends, leader, me, p).output == b.output + Said(order, ends, leader, me, p)
  {
    if order != [] {
      var n, front := order[|order| - 1], order[..|order| - 1];
      ServedSays(b, front, ends, leader, me, p);
      var said, sent := Said(front, ends, leader, me, p), Sent(n, EndOf(ends, n).sent);
      Regroup(b.output, said, sent);
      Regroup(b.output, said + sent, Notice(leader, me, p, Completes(EndOf(ends, n))));
    }
  }

  /** `o` is what serving recipient `n` sends: its batch, or the notice of its completion. */
  ghost predicate IsSaid(o: Out, n: NodeId, end: Local, leader: Option<NodeId>, me: NodeId, p: PartitionId) {
    || (end.sent.Some? && o == SyncBatch(n, end.sent.value))
    || (end.job == Finished(true) && leader.Some? && o == RemovePartitionFromReplica(leader.value, me, p))
  }

  /** Exactly the batches of the recipients and the notices of the completed are sent. */
  lemma {:induction false} SaidExactly(
      order: seq<NodeId>, done: set<NodeId>, ends: Ends, leader: Option<NodeId>, me: NodeId, p: PartitionId, o: Out)
    requires IsOrder(order, done) && done <= ends.Keys
    ensures o in Said(order, ends, leader, me, p) <==> exists n :: n in done && IsSaid(o, n, ends[n], leader, me, p)
  {
    if order != [] {
      var n, front := order[|order| - 1], order[..|order| - 1];
      SaidExactly(front, done - {n}, ends, leader, me, p, o);
      assert o in Sent(n, ends[n].sent) + Notice(leader, me, p, Completes(ends[n])) <==> IsSaid(o, n, ends[n], leader, me, p);
    }
  }

  ghost function CompletedAmong(done: set<NodeId>, ends: Ends): set<NodeId>
    requires done <= ends.Keys
  {
    set n | n in done && ends[n].job == Finished(true)
  }

  lemma CompletedGrow(done: set<NodeId>, ends: Ends, n: NodeId)
    requires done <= ends.Keys && n in done
    ensures |CompletedAmong(done, ends)| == |CompletedAmong(done - {n}, ends)| + if ends[n].job == Finished(true) then 1 else 0
  {
    var rest := CompletedAmong(done - {n}, ends);
    if ends[n].job == Finished(true) {
      assert CompletedAmong(done, ends) == rest + {n};
    } else {
      assert CompletedAmong(done, ends) == rest;
    }
  }

  lemma NoticeCount(n: NodeId, end: Local, leader: NodeId, me: NodeId, p: PartitionId)
    ensures var notice := RemovePartitionFromReplica(leader, me, p);
      && multiset(Sent(n, end.sent))[notice] == 0
      && multiset(Notice(Some(leader), me, p, Completes(end)))[notice] == if end.job == Finished(true) then 1 else 0
  {
  }

  /** ... and the leader, if there is one, is told of each completion once. */
  lemma {:induction false} NoticesAreCounted(
      order: seq<NodeId>, done: set<NodeId>, ends: Ends, leader: NodeId, me: NodeId, p: PartitionId)
    requires IsOrder(order, done) && done <= ends.Keys
    ensures multiset(Said(order, ends, Some(leader), me, p))[RemovePartitionFromReplica(leader, me, p)]
      == |CompletedAmong(done, ends)|
  {
    if order == [] {
      assert CompletedAmong(done, ends) == {};
    } else {
      var n, front := order[|order| - 1], order[..|order| - 1];
      NoticesAreCounted(front, done - {n}, ends, leader, me, p);
      CompletedGrow(done, ends, n);
      NoticeCount(n, ends[n], leader, me, p);
      var said, sent := Said(front, ends, Some(leader), me, p), Sent(n, ends[n].sent);
      var notice := Notice(Some(leader), me, p, Completes(ends[n]));
      assert multiset(said + sent + notice) == multiset(said) + multiset(sent) + multiset(notice);
    }
  }

  /** ... and the completions among them are marked, one by one. */
  lemma {:induction false} ServedMarks(b: Bench, order: seq<NodeId>, ends: Ends, leader: Option<NodeId>, me: NodeId, p: PartitionId)
    ensures ServedAll(b, order, ends, leader, me, p).marked == Marking.After(b.marked, me, Completions(order, ends, p))
  {
    if order != [] {
      var n, front := order[|order| - 1], order[..|order| - 1];
      ServedMarks(b, front, ends, leader, me, p);
      var before := Completions(front, ends, p);
      assert before + [] == before;
      assert (before + [Marking.Complete(p, n)])[..|before|] == before;
    }
  }

  class Worker {
    const me: NodeId
    const store: RuntimeStore
    var epoch: Option<nat>
    var leader: Option<NodeId>
    var nodes: map<NodeId, Kind>
    var partitions: Partitions
    var stamp: Marking.U64
    var marks: Marking.Marks
    var sync: map<PartitionId, Runs>
    var output: seq<Out>

    constructor (me: NodeId, store: RuntimeStore, nodes: map<NodeId, Kind>)
      ensures this.me == me && this.store == store && this.nodes == nodes
      ensures epoch == None && leader == None && partitions == Partitions(map[], map[], map[])
      ensures stamp == 0 && marks == map[] && sync == map[] && output == []
    {
      this.me, this.store, this.nodes := me, store, nodes;
      epoch, leader, partitions, stamp, marks := None, None, Partitions(map[], map[], map[]), 0, map[];
      sync, output := map[], [];
    }

    function Marked(): Marking.Worker
      reads this
    {
      Marking.Worker(partitions, stamp, marks)
    }

    method Record(p: PartitionId, n: NodeId, s: SyncState)
      requires p in sync
      modifies this`sync
      ensures sync == old(sync)[p := WithRun(old(sync)[p], n, Some(s))]
    {
      sync := sync[p := WithRun(sync[p], n, Some(s))];
    }

    /** Sends the page of records after a key; answers with its last key. */
    method SyncPage(n: NodeId, p: PartitionId, after: Option<Key>) returns (last: Option<Key>)
      modifies this`output
      ensures var page := RecordPage(store.SlotOf(p), after, SYNC_BATCH_SIZE);
        if page == [] then last == None && output == old(output)
        else last == Some(page[|page| - 1].0) && output == old(output) + [SyncBatch(n, ToWires(page))]
    {
      var page := store.GetPartitionMutations(p, SYNC_BATCH_SIZE, after);
      if page == [] {
        return None;
      }
      output := output + [SyncBatch(n, ToWires(page))];
      last := Some(page[|page| - 1].0);
    }

    /** The next stretch of the journal with anything still stored, passing over
        stretches with nothing left. */
    method FindChanges(p: PartitionId, after: nat) returns (page: Option<(nat, seq<(Key, Mutation)>)>)
      ensures page == NextChanges(store.SlotOf(p), after)
    {
      ghost var slot := store.SlotOf(p);
      var cursor := after;
      page := store.GetPartitionChanges(p, cursor, SYNC_BATCH_SIZE);
      while page.Some? && page.value.1 == []
        invariant page == ChangePage(slot, cursor, SYNC_BATCH_SIZE)
        invariant NextChanges(slot, cursor) == NextChanges(slot, after)
        decreases |RevisionsAbove(slot, cursor)|
      {
        ChangePageLast(slot, cursor, SYNC_BATCH_SIZE);
        FewerAbove(slot, cursor, page.value.0);
        cursor := page.value.0;
        page := store.GetPartitionChanges(p, cursor, SYNC_BATCH_SIZE);
      }
    }

    /** Sends that stretch; answers with its last revision and greatest key. */
    method SyncChanges(n: NodeId, p: PartitionId, after: nat) returns (r: Option<(nat, Key)>)
      modifies this`output
      ensures match NextChanges(store.SlotOf(p), after)
        case None => r == None && output == old(output)
        case Some((last, live)) =>
          && r == Some((last, MaxKey(ToWires(live))))
          && output == old(output) + [SyncBatch(n, ToWires(live))]
    {
      var page := FindChanges(p, after);
      if page.None? {
        return None;
      }
      var batch := ToWires(page.value.1);
      output := output + [SyncBatch(n, batch)];
      r := Some((page.value.0, MaxKey(batch)));
    }

    /** The job ended as `l`: bookkeeping and output are what it left. */
    ghost predicate EndsAs(before: Runs, out: seq<Out>, p: PartitionId, n: NodeId, completed: bool, l: Local)
      reads this
    {
      && l.job == Finished(completed)
      && p in sync && sync[p] == WithRun(before, n, l.state)
      && output == out + Sent(n, l.sent)
    }

    method StartSync(p: PartitionId, n: NodeId) returns (completed: bool)
      requires p in sync && n !in sync[p]
      modifies this`sync, this`output
      ensures EndsAs(old(sync)[p], old(output), p, n, completed, Finish(Local(Opening, None, None), store.SlotOf(p)))
      ensures sync == old(sync)[p := sync[p]]
    {
      OpeningFinishes(store.SlotOf(p));
      var start := store.StablePartitionRevision(p);
      if start.None? {
        return false;
      }
      var last := SyncPage(n, p, None);
      if last.Some? {
        Record(p, n, SyncState(None, last.value, Snapshot(start.value), false));
        completed := false;
      } else {
        var again := store.StablePartitionRevision(p);
        completed := again == start;
      }
    }

    method ContinueChanges(p: PartitionId, n: NodeId, confirmed: nat) returns (completed: bool)
      requires p in sync && n in sync[p] && sync[p][n].confirmed
      modifies this`sync, this`output
      ensures EndsAs(old(sync)[p], old(output), p, n, completed,
                     Finish(Local(Draining(confirmed, confirmed), Some(old(sync)[p][n]), None), store.SlotOf(p)))
      ensures sync == old(sync)[p := sync[p]]
    {
      DrainingFinishes(Local(Draining(confirmed, confirmed), Some(sync[p][n]), None), store.SlotOf(p));
      var changes := SyncChanges(n, p, confirmed);
      if changes.Some? {
        var (pending, key) := changes.value;
        Record(p, n, SyncState(None, key, Changing(confirmed, pending), false));
        completed := false;
      } else {
        var stable := store.StablePartitionRevision(p);
        if stable.Some? {
          Record(p, n, sync[p][n].(confirmed := true));
        }
        completed := stable.Some?;
      }
    }

    method ContinueConfirmedSync(p: PartitionId, n: NodeId) returns (completed: bool)
      requires p in sync && n in sync[p] && sync[p][n].confirmed
      modifies this`sync, this`output
      ensures EndsAs(old(sync)[p], old(output), p, n, completed,
                     Finish(Begin(Some(old(sync)[p][n]), false), store.SlotOf(p)))
      ensures sync == old(sync)[p := sync[p]]
    {
      var state := sync[p][n];
      match state.phase
      case Snapshot(revision) =>
        var last := SyncPage(n, p, Some(state.currMaxKey));
        if last.Some? {
          Record(p, n, state.(prevMaxKey := Some(state.currMaxKey), currMaxKey := last.value, confirmed := false));
          completed := false;
        } else {
          completed := ContinueChanges(p, n, revision);
        }
      case Changing(_, pending) =>
        completed := ContinueChanges(p, n, pending);
    }

    method RetryTimedOutSync(p: PartitionId, n: NodeId, timedOut: bool)
      requires p in sync && n in sync[p] && !sync[p][n].confirmed
      modifies this`sync, this`output
      ensures EndsAs(old(sync)[p], old(output), p, n, false,
                     Finish(Begin(Some(old(sync)[p][n]), timedOut), store.SlotOf(p)))
      ensures sync == old(sync)[p := sync[p]]
    {
      if !timedOut {
        return;
      }
      var state := sync[p][n];
      var retried: Option<Key>;
      match state.phase {
        case Snapshot(_) =>
          retried := SyncPage(n, p, state.prevMaxKey);
        case Changing(confirmed, _) =>
          RedrainingFinishes(Local(Redraining(confirmed), Some(state), None), store.SlotOf(p));
          var changes := SyncChanges(n, p, confirmed);
          retried := if changes.Some? then Some(changes.value.1) else None;
      }
      if retried.Some? {
        Record(p, n, state.(currMaxKey := retried.value, confirmed := false));
      }
    }

    /** Serving one recipient on a tick is its job, run undisturbed. */
    method SyncPartitionToRecipient(p: PartitionId, n: NodeId, timedOut: bool, ghost end: Local) returns (completed: bool)
      requires p in sync
      requires end == Finish(Begin(RunOf(sync[p], n), timedOut), store.SlotOf(p))
      modifies this`sync, this`output
      ensures completed == Completes(end)
      ensures sync == old(sync)[p := WithRun(old(sync)[p], n, end.state)]
      ensures output == old(output) + Sent(n, end.sent)
    {
      if n !in sync[p] {
        completed := StartSync(p, n);
      } else if sync[p][n].confirmed {
        completed := ContinueConfirmedSync(p, n);
      } else {
        RetryTimedOutSync(p, n, timedOut);
        completed := false;
      }
    }

    /** A completed recipient is marked by an owner, and the leader is told. */
    method RecordCompletedSync(p: PartitionId, n: NodeId)
      modifies this`marks, this`output
      ensures Marked() == Marking.Completed(old(Marked()), me, p, n)
      ensures output == old(output) + Notice(leader, me, p, true)
    {
      if Owns(partitions, p, me) {
        var there: map<NodeId, Marking.U64> := if p in marks then marks[p] else map[];
        marks := marks[p := there[n := stamp]];
      }
      if leader.Some? {
        output := output + [RemovePartitionFromReplica(leader.value, me, p)];
      }
    }

    function Work(): Bench
      reads this
    {
      Bench(sync, output, Marked())
    }

    /** The partition's entry, made if need be. */
    method EnsureEntry(p: PartitionId)
      modifies this`sync
      ensures sync == old(sync)[p := RunsOf(old(sync), p)]
    {
      if p !in sync {
        sync := sync[p := map[]];
      }
    }

    /** Serves one recipient, creating the partition's entry for it if need be. */
    method ServeOne(p: PartitionId, n: NodeId, timedOut: bool, ghost end: Local)
      requires end == Finish(Begin(RunOf(RunsOf(sync, p), n), timedOut), store.SlotOf(p))
      modifies this`sync, this`output, this`marks
      ensures Work() == ServedOne(old(Work()), n, end, leader, me, p)
    {
      ghost var before := Work();
      EnsureEntry(p);
      var completed := SyncPartitionToRecipient(p, n, timedOut, end);
      ReportIfCompleted(p, n, completed);
      ServedOneIs(before, Work(), n, end, leader, me, p);
    }

    method ReportIfCompleted(p: PartitionId, n: NodeId, completed: bool)
      modifies this`marks, this`output
      ensures Marked() == if completed then Marking.Completed(old(Marked()), me, p, n) else old(Marked())
      ensures output == old(output) + Notice(leader, me, p, completed)
    {
      if completed {
        RecordCompletedSync(p, n);
      }
    }

    /** Serves the next recipient of several. */
    method ServeNext(p: PartitionId, n: NodeId, timedOut: bool,
                     ghost ends: Ends, ghost before: Bench, ghost order: seq<NodeId>, ghost done: set<NodeId>)
      requires IsOrder(order, done) && done <= ends.Keys && KeepsRuns(RunsOf(before.sync, p), ends)
      requires n in ends && n !in done
      requires ends[n] == Finish(Begin(RunOf(RunsOf(before.sync, p), n), timedOut), store.SlotOf(p))
      requires Work() == ServedAll(before, order, ends, leader, me, p)
      modifies this`sync, this`output, this`marks
      ensures IsOrder(order + [n], done + {n})
      ensures Work() == ServedAll(before, order + [n], ends, leader, me, p)
    {
      NotYetServed(before, order, done, n, ends, leader, me, p);
      ServeOne(p, n, timedOut, ends[n]);
      ServedNext(before, order, n, ends, leader, me, p);
      IsOrderNext(order, done, n);
    }

    /** Serves every recipient once, in whatever order a set yields them. */
    method ServeRecipients(p: PartitionId, targets: set<NodeId>, late: set<NodeId>, ghost ends: Ends)
      returns (ghost order: seq<NodeId>)
      requires ends == EndsOf(RunsOf(sync, p), targets, late, store.SlotOf(p))
      modifies this`sync, this`output, this`marks
      ensures IsOrder(order, targets)
      ensures Work() == ServedAll(old(Work()), order, ends, leader, me, p)
    {
      EndsKeepRuns(RunsOf(sync, p), targets, late, store.SlotOf(p));
      ghost var before := Work();
      ghost var done: set<NodeId> := {};
      var todo := targets;
      order := [];
      while todo != {}
        invariant done !! todo && done + todo == targets
        invariant IsOrder(order, done)
        invariant Work() == ServedAll(before, order, ends, leader, me, p)
        decreases |todo|
      {
        var n :| n in todo;
        ServeNext(p, n, n in late, ends, before, order, done);
        order, done, todo := order + [n], done + {n}, todo - {n};
      }
      assert done == targets;
    }

    static method LeastCursor(runs: Runs) returns (r: Option<nat>)
      ensures r.None? <==> runs == map[]
      ensures r.Some? ==> IsLeastCursor(runs, r.value)
    {
      var todo := runs.Keys;
      r := None;
      while todo != {}
        invariant todo <= runs.Keys
        invariant r.None? <==> todo == runs.Keys
        invariant r.Some? ==> exists n :: n in runs && Cursor(runs[n]) == r.value
        invariant forall n :: n in runs && n !in todo ==> r.Some? && r.value <= Cursor(runs[n])
        decreases |todo|
      {
        var n :| n in todo;
        if r.None? || Cursor(runs[n]) < r.value {
          r := Some(Cursor(runs[n]));
        }
        todo := todo - {n};
      }
    }

    /** Forgets confirmed runs, then prunes the journal up to what the others need. */
    method PruneJournal(p: PartitionId)
      modifies this`sync, store`cache
      ensures sync == if p in old(sync) then old(sync)[p := Unconfirmed(old(sync)[p])] else old(sync)
      ensures PrunesTo(RunsOf(sync, p), old(store.SlotOf(p)), store.SlotOf(p))
      ensures SameElsewhere(old(store.cache), store.cache, p)
    {
      var through: Option<nat> := None;
      if p in sync {
        sync := sync[p := Unconfirmed(sync[p])];
        through := LeastCursor(sync[p]);
      }
      if through.None? {
        through := store.StablePartitionRevision(p);
      }
      if through.Some? {
        ghost var cache := store.cache;
        store.PrunePartitionChanges(p, through.value);
        SameOutside(cache, store.cache, p);
      }
    }

    method RetainConnected(p: PartitionId)
      modifies this`sync
      ensures Work() == Retained(old(Work()), p, nodes.Keys)
    {
      if p in sync {
        sync := sync[p := Connected(sync[p], nodes.Keys)];
      }
    }

    /** Serves a partition's recipients and settles their runs. */
    method ServePartition(p: PartitionId, targets: set<NodeId>, late: set<NodeId>, ghost ends: Ends)
      returns (ghost order: seq<NodeId>)
      requires ends == EndsOf(RunsOf(sync, p), targets, late, store.SlotOf(p))
      modifies this`sync, this`output, this`marks
      ensures RunsServed(old(sync), sync, ends, targets, p)
      ensures targets == ends.Keys
      ensures HasReported(old(Work()), output, Marked(), order, ends, leader, me, p)
    {
      EndsKeepRuns(RunsOf(sync, p), targets, late, store.SlotOf(p));
      order := ServeRecipients(p, targets, late, ends);
      assert targets == ends.Keys;
      ServedRuns(old(Work()), order, targets, ends, leader, me, p);
      ServedSays(old(Work()), order, ends, leader, me, p);
      ServedMarks(old(Work()), order, ends, leader, me, p);
    }

    /** ... after dropping those that left the cluster. */
    method ServeConnected(p: PartitionId, targets: set<NodeId>, late: set<NodeId>, ghost ends: Ends)
      returns (ghost order: seq<NodeId>)
      requires ends == EndsOf(Connected(RunsOf(sync, p), nodes.Keys), targets, late, store.SlotOf(p))
      modifies this`sync, this`output, this`marks
      ensures targets == ends.Keys
      ensures RunsOf(sync, p) == RunsAfter(Connected(RunsOf(old(sync), p), nodes.Keys), ends, ends.Keys)
      ensures p in sync <==> p in old(sync) || targets != {}
      ensures SameElsewhere(old(sync), sync, p)
      ensures HasReported(old(Work()), output, Marked(), order, ends, leader, me, p)
    {
      RetainConnected(p);
      assert RunsOf(sync, p) == Connected(RunsOf(old(sync), p), nodes.Keys);
      ghost var before := sync;
      order := ServePartition(p, targets, late, ends);
      RunsServedAt(before, sync, ends, targets, p);
    }

    /** One partition's part of a tick. */
    method SyncPartition(p: PartitionId, targets: set<NodeId>, late: set<NodeId>, ghost ends: Ends)
      returns (ghost order: seq<NodeId>)
      requires ends == EndsOf(Connected(RunsOf(sync, p), nodes.Keys), targets, late, store.SlotOf(p))
      modifies this`sync, this`output, this`marks, store`cache
      ensures Turned(Connected(RunsOf(old(sync), p), nodes.Keys), ends, old(store.SlotOf(p)), RunsOf(sync, p), store.SlotOf(p))
      ensures p in sync <==> p in old(sync) || targets != {}
      ensures SameElsewhere(old(sync), sync, p) && SameElsewhere(old(store.cache), store.cache, p)
      ensures HasReported(old(Work()), output, Marked(), order, ends, leader, me, p)
    {
      order := ServeConnected(p, targets, late, ends);
      PruneJournal(p);
    }

    /** The partitions with nothing left to send and no owner's claim. */
    function Obsolete(): set<PartitionId>
      reads this
    {
      set p | p in sync && sync[p] == map[] && !Owns(partitions, p, me)
    }

    /** Drops an entry without runs, and the partition with it unless it is owned. */
    method SettleEntry(p: PartitionId)
      requires p in sync
      modifies this`sync, store`cache
      ensures sync == if old(sync)[p] == map[] then old(sync) - {p} else old(sync)
      ensures store.cache == if p in old(Obsolete()) then old(store.cache) - {p} else old(store.cache)
    {
      if sync[p] == map[] {
        if !Owns(partitions, p, me) {
          store.RemovePartition(p);
        }
        sync := sync - {p};
      }
    }

    method RemoveCompletedSyncsAndObsoletePartitions()
      modifies this`sync, store`cache
      ensures sync == InProgress(old(sync))
      ensures store.cache == old(store.cache) - old(Obsolete())
    {
      ghost var before, cache, obsolete := sync, store.cache, Obsolete();
      var todo := sync.Keys;
      while todo != {}
        invariant SettledSoFar(before, sync, cache, store.cache, obsolete, todo)
        invariant forall p :: p in todo ==> (p in Obsolete() <==> p in obsolete)
        decreases |todo|
      {
        var p :| p in todo;
        ghost var middle, stored := sync, store.cache;
        SettleEntry(p);
        SettledNext(before, middle, sync, cache, stored, store.cache, obsolete, todo, p);
        todo := todo - {p};
      }
      SettledEnd(before, sync, cache, store.cache, obsolete);
    }

    /** How each recipient's job will end on this tick. */
    ghost function Plan(p: PartitionId, late: Replicas): Ends
      reads this, store
    {
      PlanOf(ViewOf(p), TargetsOf(Marked(), p, me, nodes.Keys), At(late, p), nodes.Keys)
    }

    /** The plan serves exactly the recipients to be served, each from its own run, as late
        as it is, against what is stored. */
    lemma PlanIsExact(p: PartitionId, late: Replicas, n: NodeId)
      ensures Plan(p, late).Keys == SyncTargets(partitions, p, me, nodes.Keys, Marking.Synced(Marked(), p))
      ensures n in Plan(p, late) ==>
        Plan(p, late)[n] == Finish(Begin(if n in RunsOf(sync, p) then Some(RunsOf(sync, p)[n]) else None,
                                         p in late && n in late[p]), store.SlotOf(p))
    {
      var targets := SyncTargets(partitions, p, me, nodes.Keys, Marking.Synced(Marked(), p));
      assert targets <= nodes.Keys;
      if n in targets {
        assert RunOf(Connected(RunsOf(sync, p), nodes.Keys), n) == RunOf(RunsOf(sync, p), n);
      }
    }

    function ViewOf(p: PartitionId): View
      reads this, store
    {
      View(RunsOf(sync, p), p in sync, store.SlotOf(p))
    }

    /** A partition's part of a tick leaves every other partition alone. */
    method SyncOnly(p: PartitionId, targets: set<NodeId>, late: set<NodeId>, ghost ends: Ends) returns (ghost order: seq<NodeId>)
      requires ends == EndsOf(Connected(RunsOf(sync, p), nodes.Keys), targets, late, store.SlotOf(p))
      modifies this`sync, this`output, this`marks, store`cache
      ensures HasTurned(old(ViewOf(p)), ends, nodes.Keys, ViewOf(p))
      ensures forall q: PartitionId :: q != p ==> ViewOf(q) == old(ViewOf(q))
      ensures HasReported(old(Work()), output, Marked(), order, ends, leader, me, p)
    {
      order := SyncPartition(p, targets, late, ends);
      assert ends.Keys == targets;
    }

    /** One partition's turn within a tick. */
    method SyncNext(i: PartitionId, targets: set<NodeId>, late: set<NodeId>,
                    ghost plan: Ends, ghost before: Bench, ghost plans: seq<Ends>, ghost orders: seq<seq<NodeId>>)
      returns (ghost order: seq<NodeId>)
      requires plan == PlanOf(ViewOf(i), targets, late, nodes.Keys)
      requires |plans| == i && TickReported(before, output, Marked(), plans, orders, leader, me)
      modifies this`sync, this`output, this`marks, store`cache
      ensures HasTurned(old(ViewOf(i)), plan, nodes.Keys, ViewOf(i))
      ensures forall q: PartitionId :: q != i ==> ViewOf(q) == old(ViewOf(q))
      ensures TickReported(before, output, Marked(), plans + [plan], orders + [order], leader, me)
    {
      ghost var middle := Work();
      order := SyncOnly(i, targets, late, plan);
      TickReportedNext(before, middle, output, Marked(), plans, orders, plan, order, leader, me);
    }

    /** The plans of all partitions. */
    lemma AllPlans(late: Replicas) returns (plans: seq<Ends>)
      ensures |plans| == PARTITIONS_AMOUNT && forall p: PartitionId :: plans[p] == Plan(p, late)
    {
      plans := [];
      for i := 0 to PARTITIONS_AMOUNT
        invariant |plans| == i && forall p: PartitionId | p < i :: plans[p] == Plan(p, late)
      {
        plans := plans + [Plan(i, late)];
      }
    }

    /** What is known and stored of all partitions. */
    lemma AllViews() returns (views: seq<View>)
      ensures |views| == PARTITIONS_AMOUNT && forall p: PartitionId :: views[p] == ViewOf(p)
    {
      views := [];
      for i := 0 to PARTITIONS_AMOUNT
        invariant |views| == i && forall p: PartitionId | p < i :: views[p] == ViewOf(p)
      {
        views := views + [ViewOf(i)];
      }
    }

    /** The tick has come to partition `i`: those before have had their turn as planned, and
        the others are as they were. */
    ghost predicate TickAt(
        i: nat, before: Bench, plans: seq<Ends>, views: seq<View>, orders: seq<seq<NodeId>>, views': seq<View>)
      reads this, store
    {
      && |plans| == |views| == PARTITIONS_AMOUNT && i == |views'| <= PARTITIONS_AMOUNT
      && (forall p: PartitionId :: ViewOf(p) == if p < i then views'[p] else views[p])
      && AllTurned(views[..i], plans[..i], nodes.Keys, views')
      && TickReported(before, output, Marked(), plans[..i], orders, leader, me)
    }

    method SyncTurn(i: PartitionId, late: Replicas, w: Marking.Worker, ghost before: Bench,
                    ghost plans: seq<Ends>, ghost views: seq<View>, ghost orders: seq<seq<NodeId>>, ghost views': seq<View>)
      returns (ghost order: seq<NodeId>)
      requires TickAt(i, before, plans, views, orders, views') && PlannedAt(plans, views, w, late, me, nodes.Keys, i)
      modifies this`sync, this`output, this`marks, store`cache
      ensures TickAt(i + 1, before, plans, views, orders + [order], views' + [ViewOf(i)])
    {
      order := SyncNext(i, TargetsOf(w, i, me, nodes.Keys), At(late, i), plans[i], before, plans[..i], orders);
      AllTurnedNext(views, plans, nodes.Keys, views', i, ViewOf(i));
      Prefixes(plans, i);
    }

    /** Serves every partition, deciding whom to serve by the marks found at the start. */
    method SyncEveryPartition(late: Replicas, ghost plans: seq<Ends>, ghost views: seq<View>)
      returns (ghost orders: seq<seq<NodeId>>, ghost views': seq<View>)
      requires |plans| == |views| == PARTITIONS_AMOUNT && forall p: PartitionId :: ViewOf(p) == views[p]
      requires forall p: PartitionId {:trigger PlannedAt(plans, views, Marked(), late, me, nodes.Keys, p)} ::
        PlannedAt(plans, views, Marked(), late, me, nodes.Keys, p)
      modifies this`sync, this`output, this`marks, store`cache
      ensures TickAt(PARTITIONS_AMOUNT, old(Work()), plans, views, orders, views')
    {
      var w := Marked();
      ghost var before := Work();
      orders, views' := [], [];
      for i := 0 to PARTITIONS_AMOUNT
        invariant TickAt(i, before, plans, views, orders, views')
      {
        assert PlannedAt(plans, views, w, late, me, nodes.Keys, i);
        ghost var order := SyncTurn(i, late, w, before, plans, views, orders, views');
        orders, views' := orders + [order], views' + [ViewOf(i)];
      }
    }

    /** ... every one of them as planned. */
    method SyncEvery(late: Replicas) returns (ghost plans: seq<Ends>, ghost orders: seq<seq<NodeId>>)
      modifies this`sync, this`output, this`marks, store`cache
      ensures forall p: PartitionId :: HasTurned(old(ViewOf(p)), old(Plan(p, late)), nodes.Keys, ViewOf(p))
      ensures |plans| == PARTITIONS_AMOUNT && forall p: PartitionId :: plans[p] == old(Plan(p, late))
      ensures TickReported(old(Work()), output, Marked(), plans, orders, leader, me)
    {
      plans := AllPlans(late);
      ghost var views := AllViews();
      assert forall p: PartitionId :: PlannedAt(plans, views, Marked(), late, me, nodes.Keys, p);
      ghost var views';
      orders, views' := SyncEveryPartition(late, plans, views);
      Prefixes(plans, PARTITIONS_AMOUNT);
      Prefixes(views, PARTITIONS_AMOUNT);
      forall p: PartitionId ensures HasTurned(old(ViewOf(p)), old(Plan(p, late)), nodes.Keys, ViewOf(p)) {
        AllTurnedAt(views, plans, nodes.Keys, views', p);
      }
    }

    method SettleEntries()
      modifies this`sync, store`cache
      ensures forall p: PartitionId :: SettledInto(old(ViewOf(p)), Owns(partitions, p, me), ViewOf(p))
    {
      RemoveCompletedSyncsAndObsoletePartitions();
    }

    /** ... and settles what is left. */
    method SyncAndSettle(late: Replicas) returns (ghost plans: seq<Ends>, ghost orders: seq<seq<NodeId>>)
      modifies this`sync, this`output, this`marks, store`cache
      ensures forall p: PartitionId ::
        HasTicked(old(ViewOf(p)), old(Plan(p, late)), nodes.Keys, Owns(partitions, p, me), ViewOf(p))
      ensures |plans| == PARTITIONS_AMOUNT && forall p: PartitionId :: plans[p] == old(Plan(p, late))
      ensures TickReported(old(Work()), output, Marked(), plans, orders, leader, me)
    {
      plans, orders := SyncEvery(late);
      label turned:
      SettleEntries();
      forall p: PartitionId
        ensures HasTicked(old(ViewOf(p)), old(Plan(p, late)), nodes.Keys, Owns(partitions, p, me), ViewOf(p))
      {
        assert HasTurned(old(ViewOf(p)), old(Plan(p, late)), nodes.Keys, old@turned(ViewOf(p)));
        assert SettledInto(old@turned(ViewOf(p)), Owns(partitions, p, me), ViewOf(p));
        SettlesView(old(ViewOf(p)), old(Plan(p, late)), nodes.Keys, Owns(partitions, p, me), old@turned(ViewOf(p)), ViewOf(p));
      }
    }

    /** A whole tick: every partition is served as planned, runs in progress are all that
        is kept, and a partition nobody waits for is erased unless it is owned; batches,
        notices and marks are those of the recipients planned, partition by partition. */
    method SyncPartitions(late: Replicas) returns (ghost plans: seq<Ends>, ghost orders: seq<seq<NodeId>>)
      modifies this`sync, this`output, this`marks, store`cache
      ensures forall p: PartitionId ::
        HasTicked(old(ViewOf(p)), old(Plan(p, late)), nodes.Keys, Owns(partitions, p, me), ViewOf(p))
      ensures forall p: PartitionId ::
        me in OwnersOf(partitions.mapping, p) || RunsOf(sync, p) != map[] ==>
          Records(store.SlotOf(p)) == old(Records(store.SlotOf(p)))
      ensures |plans| == PARTITIONS_AMOUNT && forall p: PartitionId :: plans[p] == old(Plan(p, late))
      ensures TickReported(old(Work()), output, Marked(), plans, orders, leader, me)
    {
      plans, orders := SyncAndSettle(late);
      forall p: PartitionId | me in OwnersOf(partitions.mapping, p) || RunsOf(sync, p) != map[]
        ensures Records(store.SlotOf(p)) == old(Records(store.SlotOf(p)))
      {
        TickedKeepsRecords(old(ViewOf(p)), old(Plan(p, late)), nodes.Keys, Owns(partitions, p, me), ViewOf(p));
      }
    }

    method TakeRecord(w: Wire)
      modifies store
      ensures store.nextRevision == old(store.nextRevision) + 1
      ensures store.cache == StoredOne(old(store.cache), old(store.nextRevision), w)
    {
      if w.deleted {
        store.DeleteAt(w.key, w.creationTimeMs);
      } else {
        store.Put(w.key, StoreModel.Record(w.ttl, w.creationTimeMs, w.value));
      }
    }

    /** Applies a batch and answers it. */
    method HandleSyncBatch(sender: NodeId, batch: seq<Wire>) returns (ghost reply: map<PartitionId, Key>)
      modifies this`output, store
      ensures IsReply(batch, reply) && output == old(output) + [SyncBatchResponse(sender, reply)]
      ensures store.nextRevision == old(store.nextRevision) + |batch|
      ensures store.cache == Stored(old(store.cache), old(store.nextRevision), batch)
    {
      var applied: map<PartitionId, Key> := map[];
      for i := 0 to |batch|
        invariant output == old(output) && applied == ReplyTo(batch[..i])
        invariant store.nextRevision == old(store.nextRevision) + i
        invariant store.cache == Stored(old(store.cache), old(store.nextRevision), batch[..i])
      {
        assert batch[..i + 1][..i] == batch[..i];
        TakeRecord(batch[i]);
        var p := PartitionOf(batch[i].key);
        if p !in applied || applied[p] < batch[i].key {
          applied := applied[p := batch[i].key];
        }
      }
      assert batch[..|batch|] == batch;
      ReplyToIsReply(batch);
      output := output + [SyncBatchResponse(sender, applied)];
      reply := applied;
    }

    /** Takes an acknowledgement: the sender's run for each partition named in it is
        confirmed if it waits for just that key, and nothing else changes. */
    method HandleSyncBatchResponse(sender: NodeId, reply: map<PartitionId, Key>)
      modifies this`sync
      ensures sync == AcknowledgedRuns(old(sync), sender, reply, reply.Keys)
    {
      var todo := reply.Keys;
      while todo != {}
        invariant todo <= reply.Keys
        invariant sync == AcknowledgedRuns(old(sync), sender, reply, reply.Keys - todo)
        decreases |todo|
      {
        var p :| p in todo;
        ghost var before := sync;
        if p in sync && sender in sync[p] && sync[p][sender].currMaxKey == reply[p] {
          Record(p, sender, sync[p][sender].(confirmed := true));
        }
        AcknowledgeNext(old(sync), before, sync, sender, reply, reply.Keys - todo, p);
        assert reply.Keys - (todo - {p}) == reply.Keys - todo + {p};
        todo := todo - {p};
      }
      assert reply.Keys - todo == reply.Keys;
    }

    function Standing(): Electing.Worker
      reads this
    {
      Electing.Worker(epoch, leader, nodes)
    }

    /** Follows an announced leader of a later epoch, if it is a known manager, and
        otherwise asks the other managers who leads. */
    method HandleLeader(id: NodeId, newEpoch: nat)
      modifies this`epoch, this`leader, this`output
      ensures Standing() == Electing.WorkerHandleLeader(old(Standing()), id, newEpoch)
      ensures Extends(old(output), output,
        if Electing.Behind(old(epoch), newEpoch) && !(id in nodes && nodes[id].ManagerNode?)
        then set n | n in Electing.OtherManagers(nodes, me) :: GetClusterState(n) else {})
    {
      if Electing.Behind(epoch, newEpoch) {
        if id in nodes && nodes[id].ManagerNode? {
          leader, epoch := Some(id), Some(newEpoch);
        } else {
          output := PushAll(output, set n | n in Electing.OtherManagers(nodes, me) :: GetClusterState(n));
        }
      }
    }

    /** Takes the leader's table: a later epoch, or the same epoch from the same leader. */
    method HandleClusterState(newEpoch: nat, leaderId: NodeId, items: map<NodeId, Kind>, table: Partitions, now: Marking.U64)
      modifies this`epoch, this`leader, this`nodes, this`partitions, this`stamp, this`output
      ensures Standing() == Electing.WorkerHandleClusterState(old(Standing()), me, newEpoch, leaderId, items)
      ensures Marked() == if Electing.Accepts(old(epoch), old(leader), newEpoch, leaderId)
                          then Marking.Accepted(old(Marked()), table, now) else old(Marked())
      ensures Extends(old(output), output,
        if Electing.Accepts(old(epoch), old(leader), newEpoch, leaderId)
        then set n | n in items.Keys - nodes.Keys :: NewConnection(n, items[n]) else {})
      ensures old(epoch).None? || old(epoch).value < newEpoch || (old(epoch).value == newEpoch && old(leader) == Some(leaderId))
        ==> epoch == Some(newEpoch) && leader == Some(leaderId) && partitions == table
      ensures old(epoch).Some? && (newEpoch < old(epoch).value || (old(epoch).value == newEpoch && old(leader) != Some(leaderId)))
        ==> Standing() == old(Standing()) && Marked() == old(Marked()) && output == old(output)
    {
      if Electing.Accepts(epoch, leader, newEpoch, leaderId) {
        epoch, leader := Some(newEpoch), Some(leaderId);
        TakeTable(table, now);
        if items != map[] {
          nodes := map n | n in nodes && (n == me || n in items) :: nodes[n];
        }
        output := PushAll(output, set n | n in items.Keys - nodes.Keys :: NewConnection(n, items[n]));
      }
    }

    method TakeTable(table: Partitions, now: Marking.U64)
      modifies this`partitions, this`stamp
      ensures Marked() == Marking.Accepted(old(Marked()), table, now) && partitions == table
    {
      if partitions != table {
        stamp := if Marking.Saturating(stamp) < now then now else Marking.Saturating(stamp);
      }
      partitions := table;
    }
  }

  /** Each partition's recipients as planned, in some order. */
  ghost predicate AllListed(plans: seq<Ends>, orders: seq<seq<NodeId>>) {
    if orders == [] then plans == []
    else
      var p := |orders| - 1;
      |plans| == |orders| && IsOrder(orders[p], plans[p].Keys) && AllListed(plans[..p], orders[..p])
  }

  ghost function AllSaid(plans: seq<Ends>, orders: seq<seq<NodeId>>, leader: Option<NodeId>, me: NodeId): seq<Out>
    requires |plans| == |orders| <= PARTITIONS_AMOUNT
  {
    if orders == [] then []
    else
      var p := |orders| - 1;
      AllSaid(plans[..p], orders[..p], leader, me) + Said(orders[p], plans[p], leader, me, p)
  }

  ghost function AllCompletions(plans: seq<Ends>, orders: seq<seq<NodeId>>): seq<Marking.Event>
    requires |plans| == |orders| <= PARTITIONS_AMOUNT
  {
    if orders == [] then []
    else
      var p := |orders| - 1;
      AllCompletions(plans[..p], orders[..p]) + Completions(orders[p], plans[p], p)
  }

  /** What a tick has sent and marked, partition by partition. */
  ghost predicate TickReported(
      before: Bench, output: seq<Out>, marked: Marking.Worker, plans: seq<Ends>, orders: seq<seq<NodeId>>,
      leader: Option<NodeId>, me: NodeId)
  {
    && |plans| == |orders| <= PARTITIONS_AMOUNT && AllListed(plans, orders)
    && output == before.output + AllSaid(plans, orders, leader, me)
    && marked == Marking.After(before.marked, me, AllCompletions(plans, orders))
  }

  /** `o` is what serving some recipient of this plan sends. */
  ghost predicate SaidOf(plan: Ends, leader: Option<NodeId>, me: NodeId, p: nat, o: Out) {
    p < PARTITIONS_AMOUNT && exists n :: n in plan && IsSaid(o, n, plan[n], leader, me, p)
  }

  /** What a whole tick sends, from the plans alone. */
  lemma {:induction false} AllSaidExactly(plans: seq<Ends>, orders: seq<seq<NodeId>>, leader: Option<NodeId>, me: NodeId, o: Out)
    requires |plans| == |orders| <= PARTITIONS_AMOUNT && AllListed(plans, orders)
    ensures o in AllSaid(plans, orders, leader, me) <==>
      exists p :: 0 <= p < |plans| && SaidOf(plans[p], leader, me, p, o)
  {
    if orders != [] {
      var p := |orders| - 1;
      AllSaidExactly(plans[..p], orders[..p], leader, me, o);
      SaidExactly(orders[p], plans[p].Keys, plans[p], leader, me, p, o);
      assert o in Said(orders[p], plans[p], leader, me, p) <==> SaidOf(plans[p], leader, me, p, o);
      assert forall q :: 0 <= q < p ==> plans[..p][q] == plans[q];
    }
  }

  lemma AllListedNext(plans: seq<Ends>, orders: seq<seq<NodeId>>, plan: Ends, order: seq<NodeId>, leader: Option<NodeId>, me: NodeId)
    requires |plans| == |orders| < PARTITIONS_AMOUNT && AllListed(plans, orders) && IsOrder(order, plan.Keys)
    ensures AllListed(plans + [plan], orders + [order])
    ensures AllSaid(plans + [plan], orders + [order], leader, me) ==
      AllSaid(plans, orders, leader, me) + Said(order, plan, leader, me, |plans|)
    ensures AllCompletions(plans + [plan], orders + [order]) == AllCompletions(plans, orders) + Completions(order, plan, |plans|)
  {
    assert (plans + [plan])[..|plans|] == plans && (orders + [order])[..|orders|] == orders;
  }

  lemma Prefixes<T>(s: seq<T>, i: nat)
    requires i <= |s|
    ensures i < |s| ==> s[..i] + [s[i]] == s[..i + 1]
    ensures i == |s| ==> s[..i] == s
  {
  }

  lemma Regroup<T>(a: seq<T>, b: seq<T>, c: seq<T>)
    ensures a + b + c == a + (b + c)
  {
  }

  lemma TickReportedNext(
      before: Bench, middle: Bench, output: seq<Out>, marked: Marking.Worker, plans: seq<Ends>, orders: seq<seq<NodeId>>,
      plan: Ends, order: seq<NodeId>, leader: Option<NodeId>, me: NodeId)
    requires TickReported(before, middle.output, middle.marked, plans, orders, leader, me) && |plans| < PARTITIONS_AMOUNT
    requires HasReported(middle, output, marked, order, plan, leader, me, |plans|)
    ensures TickReported(before, output, marked, plans + [plan], orders + [order], leader, me)
  {
    AllListedNext(plans, orders, plan, order, leader, me);
    Marking.AfterBoth(before.marked, me, AllCompletions(plans, orders), Completions(order, plan, |plans|));
    Regroup(before.output, AllSaid(plans, orders, leader, me), Said(order, plan, leader, me, |plans|));
  }

  lemma AcknowledgeNext(
      start: map<PartitionId, Runs>, before: map<PartitionId, Runs>, after: map<PartitionId, Runs>,
      sender: NodeId, reply: map<PartitionId, Key>, taken: set<PartitionId>, p: PartitionId)
    requires taken <= reply.Keys && p in reply && p !in taken
    requires before == AcknowledgedRuns(start, sender, reply, taken)
    requires after == if p in before && sender in before[p] && before[p][sender].currMaxKey == reply[p]
                      then before[p := WithRun(before[p], sender, Some(before[p][sender].(confirmed := true)))] else before
    ensures after == AcknowledgedRuns(start, sender, reply, taken + {p})
  {
    if p in before && sender in before[p] {
      assert before[p] == start[p];
      assert before[p][sender := before[p][sender]] == before[p];
    }
  }

  /** The runs once the answers for the partitions in `taken` have been taken. */
  function AcknowledgedRuns(
      sync: map<PartitionId, Runs>, sender: NodeId, reply: map<PartitionId, Key>, taken: set<PartitionId>): map<PartitionId, Runs>
    requires taken <= reply.Keys
  {
    map p | p in sync ::
      if p in taken && sender in sync[p] then WithRun(sync[p], sender, Some(Acknowledged(sync[p][sender], reply[p])))
      else sync[p]
  }

  /** Every entry outside `todo` has been settled. */
  ghost predicate SettledSoFar(
      before: map<PartitionId, Runs>, sync: map<PartitionId, Runs>, cache: Cache, cache': Cache,
      obsolete: set<PartitionId>, todo: set<PartitionId>)
  {
    && todo <= sync.Keys && sync.Keys <= before.Keys
    && (forall p :: p in before && before[p] != map[] ==> p in sync)
    && (forall p :: p in sync ==> sync[p] == before[p] && (p in todo || before[p] != map[]))
    && cache' == cache - (obsolete - todo)
  }

  lemma SettledNext(
      before: map<PartitionId, Runs>, sync: map<PartitionId, Runs>, sync': map<PartitionId, Runs>,
      cache: Cache, stored: Cache, stored': Cache, obsolete: set<PartitionId>, todo: set<PartitionId>, p: PartitionId)
    requires SettledSoFar(before, sync, cache, stored, obsolete, todo) && p in todo
    requires sync' == if sync[p] == map[] then sync - {p} else sync
    requires stored' == if p in obsolete then stored - {p} else stored
    ensures SettledSoFar(before, sync', cache, stored', obsolete, todo - {p})
  {
    if p in obsolete {
      assert obsolete - (todo - {p}) == obsolete - todo + {p};
    } else {
      assert obsolete - (todo - {p}) == obsolete - todo;
    }
  }

  lemma SettledEnd(
      before: map<PartitionId, Runs>, sync: map<PartitionId, Runs>, cache: Cache, cache': Cache, obsolete: set<PartitionId>)
    requires SettledSoFar(before, sync, cache, cache', obsolete, {})
    ensures sync == InProgress(before) && cache' == cache - obsolete
  {
    assert sync.Keys == InProgress(before).Keys;
    assert obsolete - {} == obsolete;
  }

  /** What the service knows and stores of one partition. */
  datatype View = View(runs: Runs, entry: bool, slot: Slot)

  /** Whom a worker has to serve, by its table and its marks. */
  function TargetsOf(w: Marking.Worker, p: PartitionId, me: NodeId, nodes: set<NodeId>): set<NodeId> {
    SyncTargets(w.partitions, p, me, nodes, Marking.Synced(w, p))
  }

  ghost predicate PlannedAt(
      plans: seq<Ends>, views: seq<View>, w: Marking.Worker, late: Replicas, me: NodeId, nodes: set<NodeId>, p: PartitionId)
  {
    p < |plans| && p < |views| && plans[p] == PlanOf(views[p], TargetsOf(w, p, me, nodes), At(late, p), nodes)
  }

  ghost function PlanOf(v: View, targets: set<NodeId>, late: set<NodeId>, nodes: set<NodeId>): Ends {
    EndsOf(Connected(v.runs, nodes), targets, late, v.slot)
  }

  ghost predicate SameElsewhere<T>(before: map<PartitionId, T>, after: map<PartitionId, T>, p: PartitionId) {
    forall q: PartitionId :: q != p ==> (q in after <==> q in before) && (q in after ==> after[q] == before[q])
  }

  lemma SameOutside<T>(before: map<PartitionId, T>, after: map<PartitionId, T>, p: PartitionId)
    requires after - {p} == before - {p}
    ensures SameElsewhere(before, after, p)
  {
    forall q: PartitionId | q != p ensures (q in after <==> q in before) && (q in after ==> after[q] == before[q]) {
      assert q in after <==> q in after - {p};
      assert q in before <==> q in before - {p};
      assert q in after ==> after[q] == (after - {p})[q];
      assert q in before ==> before[q] == (before - {p})[q];
    }
  }

  ghost predicate HasTurned(before: View, ends: Ends, nodes: set<NodeId>, after: View) {
    && Turned(Connected(before.runs, nodes), ends, before.slot, after.runs, after.slot)
    && (after.entry <==> before.entry || ends.Keys != {})
  }

  /** ... and so has every partition of several. */
  ghost predicate AllTurned(views: seq<View>, plans: seq<Ends>, nodes: set<NodeId>, views': seq<View>) {
    if views' == [] then views == [] && plans == []
    else
      var p := |views'| - 1;
      && |views| == |views'| == |plans|
      && HasTurned(views[p], plans[p], nodes, views'[p])
      && AllTurned(views[..p], plans[..p], nodes, views'[..p])
  }

  lemma AllTurnedNext(views: seq<View>, plans: seq<Ends>, nodes: set<NodeId>, views': seq<View>, i: nat, after: View)
    requires i < |views| && |plans| == |views| && |views'| == i
    requires AllTurned(views[..i], plans[..i], nodes, views') && HasTurned(views[i], plans[i], nodes, after)
    ensures AllTurned(views[..i + 1], plans[..i + 1], nodes, views' + [after])
  {
    assert views[..i + 1][..i] == views[..i] && plans[..i + 1][..i] == plans[..i] && (views' + [after])[..i] == views';
  }

  lemma {:induction false} AllTurnedAt(views: seq<View>, plans: seq<Ends>, nodes: set<NodeId>, views': seq<View>, p: nat)
    requires AllTurned(views, plans, nodes, views') && p < |views'|
    ensures |views| == |plans| == |views'| && HasTurned(views[p], plans[p], nodes, views'[p])
  {
    if p < |views'| - 1 {
      var q := |views'| - 1;
      AllTurnedAt(views[..q], plans[..q], nodes, views'[..q], p);
    }
  }

  ghost predicate HasTicked(before: View, ends: Ends, nodes: set<NodeId>, owned: bool, after: View) {
    && TickEnds(Connected(before.runs, nodes), ends, before.entry || ends.Keys != {}, owned, before.slot, after.runs, after.slot)
    && (after.entry <==> after.runs != map[])
  }

  lemma TickedKeepsRecords(before: View, ends: Ends, nodes: set<NodeId>, owned: bool, after: View)
    requires HasTicked(before, ends, nodes, owned, after) && (owned || after.runs != map[])
    ensures Records(after.slot) == Records(before.slot)
  {
    TickKeepsRecords(Connected(before.runs, nodes), ends, before.entry || ends.Keys != {}, owned, before.slot, after.runs, after.slot);
  }

  /** An entry without runs goes, and takes a partition with it that is not owned. */
  ghost predicate SettledInto(middle: View, owned: bool, after: View) {
    && (middle.runs != map[] ==> middle.entry)
    && (after.entry <==> middle.entry && middle.runs != map[])
    && after.runs == (if after.entry then middle.runs else map[])
    && after.slot == (if middle.entry && middle.runs == map[] && !owned then None else middle.slot)
  }

  lemma SettlesView(before: View, ends: Ends, nodes: set<NodeId>, owned: bool, middle: View, after: View)
    requires HasTurned(before, ends, nodes, middle) && SettledInto(middle, owned, after)
    ensures HasTicked(before, ends, nodes, owned, after)
  {
  }

  /** Batches, completion notices and completion marks are those of the recipients
      served, in this order. */
  ghost predicate HasReported(
      before: Bench, output: seq<Out>, marked: Marking.Worker, order: seq<NodeId>, ends: Ends,
      leader: Option<NodeId>, me: NodeId, p: PartitionId)
  {
    && IsOrder(order, ends.Keys)
    && output == before.output + Said(order, ends, leader, me, p)
    && marked == Marking.After(before.marked, me, Completions(order, ends, p))
  }

  lemma RunsServedAt(before: map<PartitionId, Runs>, after: map<PartitionId, Runs>, ends: Ends, served: set<NodeId>, p: PartitionId)
    requires RunsServed(before, after, ends, served, p)
    ensures RunsOf(after, p) == RunsAfter(RunsOf(before, p), ends, served)
    ensures p in after <==> p in before || served != {}
    ensures SameElsewhere(before, after, p)
  {
    assert served == {} ==> RunsAfter(RunsOf(before, p), ends, served) == RunsOf(before, p);
  }

  // ------------------------------------------------- the worker as the model's sender

  /** What a tick of this worker does to a partition is a run of the migration model. */
  lemma TickedIsRun(
      s: Model.State, nodes: set<NodeId>, targets: set<NodeId>, late: set<NodeId>, owned: bool, after: View)
    returns (events: seq<Model.Event>)
    requires s.pc.Idle? && targets <= nodes && (s.entry || s.sync == map[])
    requires !after.entry && (s.entry || targets != {}) && !owned ==> !Model.Busy(s.slot)
    requires HasTicked(View(s.sync, s.entry, s.slot), EndsOf(Connected(s.sync, nodes), targets, late, s.slot), nodes, owned, after)
    ensures Model.Legal(s, events)
    ensures var s' := Model.After(s, events); View(s'.sync, s'.entry, s'.slot) == after && s'.pc.Idle?
  {
    assert EndsOf(Connected(s.sync, nodes), targets, late, s.slot).Keys == targets;
    events := TickRuns.TickIsRun(s, nodes, targets, late, owned, after.runs, after.slot);
  }

  /** ... and so is taking an acknowledgement of a delivered batch. */
  lemma AcknowledgedIsStep(s: Model.State, sync: map<PartitionId, Runs>, sender: NodeId, i: nat, reply: map<PartitionId, Key>)
    requires s.id in sync && sync[s.id] == s.sync
    requires Model.Enabled(s, Model.Acknowledge(sender, i, reply))
    ensures AcknowledgedRuns(sync, sender, reply, reply.Keys)[s.id] ==
      Model.Apply(s, Model.Acknowledge(sender, i, reply)).sync
  {
  }
}
