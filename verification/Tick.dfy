/** A whole tick over one partition, undisturbed: every recipient's job run to its
    end, then the journal pruned and a partition that is done erased. */
module TickModel {
  import opened Common
  import opened StoreModel
  import opened SyncModel

  type Runs = map<NodeId, SyncState>

  function RunOf(runs: Runs, n: NodeId): Option<SyncState> {
    if n in runs then Some(runs[n]) else None
  }

  function WithRun(runs: Runs, n: NodeId, state: Option<SyncState>): Runs {
    if state.Some? then runs[n := state.value] else runs
  }

  /** How each recipient's job on this tick ends. */
  type Ends = map<NodeId, Local>

  ghost function EndsOf(runs: Runs, targets: set<NodeId>, late: set<NodeId>, slot: Slot): Ends {
    map n | n in targets :: Finish(Begin(RunOf(runs, n), n in late), slot)
  }

  lemma {:induction false} RunStays(l: Local, slot: Slot)
    requires Fits(l.job, l.state) && l.state.Some?
    ensures Finish(l, slot).state.Some?
    decreases Rank(l.job), Left(l.job, slot)
  {
    if !l.job.Finished? {
      JobShrinks(l, slot);
      AdvanceFits(l, slot);
      RunStays(Advance(l, slot), slot);
    }
  }

  /** A run that exists outlives its job; a run is forgotten only when it is confirmed. */
  ghost predicate KeepsRuns(runs: Runs, ends: Ends) {
    forall n :: n in ends && n in runs ==> ends[n].state.Some?
  }

  lemma EndsKeepRuns(runs: Runs, targets: set<NodeId>, late: set<NodeId>, slot: Slot)
    ensures KeepsRuns(runs, EndsOf(runs, targets, late, slot))
  {
    forall n | n in targets && n in runs ensures EndsOf(runs, targets, late, slot)[n].state.Some? {
      RunStays(Begin(RunOf(runs, n), n in late), slot);
    }
  }

  /** The runs once the recipients in `served` have been served. */
  function RunsAfter(runs: Runs, ends: Ends, served: set<NodeId>): Runs
    requires served <= ends.Keys
  {
    map n | n in runs.Keys + served && (n in served ==> ends[n].state.Some?) ::
      if n in served then ends[n].state.value else runs[n]
  }

  predicate Completes(end: Local) {
    end.job == Finished(true)
  }

  /** Serving one more recipient touches no other's run. */
  lemma ServingOneMore(runs: Runs, ends: Ends, served: set<NodeId>, n: NodeId)
    requires served <= ends.Keys && n in ends && n !in served && KeepsRuns(runs, ends)
    ensures RunOf(RunsAfter(runs, ends, served), n) == RunOf(runs, n)
    ensures WithRun(RunsAfter(runs, ends, served), n, ends[n].state) == RunsAfter(runs, ends, served + {n})
  {
  }

  /** How far the journal may be pruned when the tick has served its recipients. */
  ghost predicate PrunesTo(rest: Runs, slot: Slot, slot': Slot) {
    if rest == map[] then slot' == if Stable(slot).Some? then Pruned(slot, Stable(slot).value) else slot
    else exists through :: IsLeastCursor(rest, through) && slot' == Pruned(slot, through)
  }

  /** Pruning is exact: with runs left, an entry stays if and only if some run still needs
      it; with none, if and only if it is above a revision no writer is moving. */
  lemma JournalIsPrunedExactly(rest: Runs, slot: Slot, slot': Slot, r: nat)
    requires PrunesTo(rest, slot, slot')
    ensures Records(slot') == Records(slot) && (slot.None? <==> slot'.None?)
    ensures rest != map[] ==> (r in Changes(slot') <==> r in Changes(slot) && exists n :: n in rest && Cursor(rest[n]) < r)
    ensures rest == map[] ==> (r in Changes(slot') <==> r in Changes(slot) && (Stable(slot).Some? ==> Stable(slot).value < r))
    ensures r in Changes(slot') ==> Changes(slot')[r] == Changes(slot)[r]
  {
    if rest != map[] {
      var through :| IsLeastCursor(rest, through) && slot' == Pruned(slot, through);
      var n :| n in rest && Cursor(rest[n]) == through;
    }
  }

  /** Recipients that left the cluster are dropped. */
  function Connected(runs: Runs, nodes: set<NodeId>): Runs {
    map n | n in runs && n in nodes :: runs[n]
  }

  /** What a tick leaves of one partition before it looks for partitions to erase. */
  ghost predicate Turned(
      runs: Runs, ends: Ends, slot: Slot, runs': Runs, slot': Slot)
  {
    && runs' == Unconfirmed(RunsAfter(runs, ends, ends.Keys))
    && PrunesTo(runs', slot, slot')
  }

  /** What the whole tick leaves: a partition with an entry, no run in progress and no
      claim on it is erased; any other keeps what its turn left. */
  ghost predicate TickEnds(
      runs: Runs, ends: Ends, entry: bool, owned: bool, slot: Slot, runs': Runs, slot': Slot)
  {
    && runs' == Unconfirmed(RunsAfter(runs, ends, ends.Keys))
    && if entry && runs' == map[] && !owned then slot' == None else PrunesTo(runs', slot, slot')
  }

  /** A tick takes records away only by erasing a partition that this worker does not own
      and that no recipient is being waited for, and it erases every such partition that
      has an entry. */
  lemma TickKeepsRecords(runs: Runs, ends: Ends, entry: bool, owned: bool, slot: Slot, runs': Runs, slot': Slot)
    requires TickEnds(runs, ends, entry, owned, slot, runs', slot')
    ensures entry && !owned && runs' == map[] ==> slot' == None
    ensures !entry || owned || runs' != map[] ==> Records(slot') == Records(slot)
  {
  }
}
