/** The worker's tick, as its class performs it, is one of the runs of the migration
    model: what holds of every run holds of every sequence of ticks. */
module TickRuns {
  import opened Common
  import opened StoreModel
  import opened SyncModel
  import opened Migration
  import Tick = TickModel

  lemma {:induction false} RunsCompose(s: State, a: seq<Event>, b: seq<Event>)
    requires Legal(s, a) && Legal(After(s, a), b)
    ensures Legal(s, a + b) && After(s, a + b) == After(After(s, a), b)
    decreases |a|
  {
    if a == [] {
      assert a + b == b;
    } else {
      assert (a + b)[1..] == a[1..] + b;
      RunsCompose(Apply(s, a[0]), a[1..], b);
    }
  }

  lemma OneStep(s: State, e: Event)
    requires Enabled(s, e)
    ensures Legal(s, [e]) && After(s, [e]) == Apply(s, e)
  {
  }

  /** What a tick changes of a state, leaving messages and recipients aside. */
  datatype Bench = Bench(slot: Slot, entry: bool, sync: map<NodeId, SyncState>, pc: Pc)

  function BenchOf(s: State): Bench {
    Bench(s.slot, s.entry, s.sync, s.pc)
  }

  lemma AdvanceShape(l: Local, slot: Slot)
    requires Fits(l.job, l.state) && l.sent == None
    ensures var a := Advance(l, slot);
      && (!a.job.Finished? ==> a.sent == None)
      && (l.state.Some? ==> a.state.Some?)
  {
  }

  lemma SameRun(sync: map<NodeId, SyncState>, n: NodeId)
    ensures Tick.WithRun(sync, n, StateOf(sync, n)) == sync
  {
    if n in sync {
      assert sync[n := sync[n]] == sync;
    }
  }

  lemma CallStep(s: State)
    requires CanCall(s)
    ensures var l := Advance(Local(s.pc.job, StateOf(s.sync, s.pc.n), None), s.slot);
      var s' := AfterCall(s);
      && s'.slot == s.slot && s'.entry == s.entry
      && s'.sync == Tick.WithRun(s.sync, s.pc.n, l.state)
      && (if l.job.Finished? then s'.pc == Ticking(s.pc.todo)
          else s'.pc.Serving? && s'.pc.todo == s.pc.todo && s'.pc.n == s.pc.n && s'.pc.job == l.job)
  {
    SameRun(s.sync, s.pc.n);
  }

  /** One store call brings the job, and what it will have done, one step nearer. */
  lemma JobStep(s: State)
    requires CanCall(s)
    ensures var l, s' := LocalOf(s), AfterCall(s);
      var a := Advance(l, s.slot);
      && Legal(s, [StoreCall]) && After(s, [StoreCall]) == s'
      && Fits(a.job, a.state) && Finish(l, s.slot) == Finish(a, s.slot)
      && (Rank(a.job) < Rank(l.job) || (Rank(a.job) == Rank(l.job) && Left(a.job, s.slot) < Left(l.job, s.slot)))
      && (!a.job.Finished? ==> CanCall(s') && LocalOf(s') == a)
  {
    var l := LocalOf(s);
    JobShrinks(l, s.slot);
    AdvanceFits(l, s.slot);
    AdvanceShape(l, s.slot);
    CallStep(s);
    OneStep(s, StoreCall);
  }

  /** A recipient's job, run undisturbed, is a run of store calls. */
  lemma {:induction false} JobIsRun(s: State) returns (events: seq<Event>)
    requires CanCall(s)
    ensures Legal(s, events)
    ensures BenchOf(After(s, events)) ==
      Bench(s.slot, s.entry, Tick.WithRun(s.sync, s.pc.n, Finish(LocalOf(s), s.slot).state), Ticking(s.pc.todo))
    decreases Rank(s.pc.job), Left(s.pc.job, s.slot)
  {
    JobStep(s);
    CallStep(s);
    var s' := AfterCall(s);
    if s'.pc.Ticking? {
      events := [StoreCall];
    } else {
      var rest := JobIsRun(s');
      RunsCompose(s, [StoreCall], rest);
      events := [StoreCall] + rest;
    }
  }

  lemma BeginStands(state: Option<SyncState>, timedOut: bool)
    ensures var l := Begin(state, timedOut); Fits(l.job, l.state) && l.state == state && l.sent == None
  {
  }

  /** Serving one recipient is a run. */
  lemma ServeIsRun(s: State, n: NodeId, timedOut: bool) returns (events: seq<Event>)
    requires s.pc.Ticking? && n in s.pc.todo
    ensures Legal(s, events)
    ensures var l := Finish(Begin(StateOf(s.sync, n), timedOut), s.slot);
      BenchOf(After(s, events)) == Bench(s.slot, true, Tick.WithRun(s.sync, n, l.state), Ticking(s.pc.todo - {n}))
  {
    var e := Serve(n, timedOut);
    var s' := AfterServe(s, n, timedOut);
    OneStep(s, e);
    BeginStands(StateOf(s.sync, n), timedOut);
    SameRun(s.sync, n);
    if s'.pc.Ticking? {
      events := [e];
    } else {
      var rest := JobIsRun(s');
      RunsCompose(s, [e], rest);
      events := [e] + rest;
    }
  }

  lemma ServeOneMore(s: State, runs: Tick.Runs, late: set<NodeId>, ends: Tick.Ends, served: set<NodeId>, n: NodeId)
    returns (events: seq<Event>)
    requires s.pc.Ticking? && n in s.pc.todo && n !in served && served <= ends.Keys
    requires n in ends && ends[n] == Finish(Begin(Tick.RunOf(runs, n), n in late), s.slot)
    requires Tick.KeepsRuns(runs, ends) && s.sync == Tick.RunsAfter(runs, ends, served)
    ensures Legal(s, events)
    ensures BenchOf(After(s, events)) ==
      Bench(s.slot, true, Tick.RunsAfter(runs, ends, served + {n}), Ticking(s.pc.todo - {n}))
  {
    Tick.ServingOneMore(runs, ends, served, n);
    assert StateOf(s.sync, n) == Tick.RunOf(runs, n);
    events := ServeIsRun(s, n, n in late);
  }

  /** Serving all recipients is a run, in any order. */
  lemma {:induction false} ServesAreRun(s: State, runs: Tick.Runs, late: set<NodeId>, ends: Tick.Ends, served: set<NodeId>)
    returns (events: seq<Event>)
    requires s.pc.Ticking? && served !! s.pc.todo && ends.Keys == served + s.pc.todo
    requires forall n :: n in s.pc.todo ==> ends[n] == Finish(Begin(Tick.RunOf(runs, n), n in late), s.slot)
    requires Tick.KeepsRuns(runs, ends) && s.sync == Tick.RunsAfter(runs, ends, served)
    ensures Legal(s, events)
    ensures BenchOf(After(s, events)) ==
      Bench(s.slot, s.entry || s.pc.todo != {}, Tick.RunsAfter(runs, ends, ends.Keys), Ticking({}))
    decreases |s.pc.todo|
  {
    var todo := s.pc.todo;
    if todo == {} {
      assert served == ends.Keys;
      events := [];
    } else {
      var n :| n in todo;
      var first := ServeOneMore(s, runs, late, ends, served, n);
      assert served + {n} + (todo - {n}) == ends.Keys;
      var rest := ServesAreRun(After(s, first), runs, late, ends, served + {n});
      RunsCompose(s, first, rest);
      events := first + rest;
    }
  }

  /** Pruning is a run. */
  lemma PruneIsRun(s: State, slot': Slot) returns (events: seq<Event>)
    requires s.pc == Ticking({})
    requires Tick.PrunesTo(Unconfirmed(s.sync), s.slot, slot')
    ensures Legal(s, events)
    ensures BenchOf(After(s, events)) == Bench(slot', s.entry, Unconfirmed(s.sync), Cleaning)
  {
    var rest := Unconfirmed(s.sync);
    if rest == map[] {
      var s1 := AfterRecipients(s, 0);
      OneStep(s, EndRecipients(0));
      var s2 := AfterChoose(s1);
      OneStep(s1, Choose);
      RunsCompose(s, [EndRecipients(0)], [Choose]);
      events := [EndRecipients(0)] + [Choose];
      if s2.pc.Pruning? {
        OneStep(s2, Prune);
        RunsCompose(s, events, [Prune]);
        events := events + [Prune];
      }
    } else {
      var through :| IsLeastCursor(rest, through) && slot' == Pruned(s.slot, through);
      var s1 := AfterRecipients(s, through);
      OneStep(s, EndRecipients(through));
      OneStep(s1, Prune);
      RunsCompose(s, [EndRecipients(through)], [Prune]);
      events := [EndRecipients(through)] + [Prune];
    }
  }

  lemma PlannedServes(s: State, targets: set<NodeId>, late: set<NodeId>) returns (events: seq<Event>)
    requires s.pc == Ticking(targets)
    ensures Legal(s, events)
    ensures BenchOf(After(s, events)) ==
      Bench(s.slot, s.entry || targets != {},
            Tick.RunsAfter(s.sync, Tick.EndsOf(s.sync, targets, late, s.slot), targets), Ticking({}))
  {
    var ends := Tick.EndsOf(s.sync, targets, late, s.slot);
    Tick.EndsKeepRuns(s.sync, targets, late, s.slot);
    assert Tick.RunsAfter(s.sync, ends, {}) == s.sync;
    events := ServesAreRun(s, s.sync, late, ends, {});
  }

  lemma BeginIsRun(s: State, connected: set<NodeId>, targets: set<NodeId>, late: set<NodeId>) returns (events: seq<Event>)
    requires s.pc.Idle? && targets <= connected
    ensures Legal(s, events)
    ensures var runs := Tick.Connected(s.sync, connected);
      BenchOf(After(s, events)) ==
        Bench(s.slot, s.entry || targets != {},
              Tick.RunsAfter(runs, Tick.EndsOf(runs, targets, late, s.slot), targets), Ticking({}))
  {
    var begin := BeginTick(connected, targets);
    var s1 := AfterBegin(s, connected, targets);
    OneStep(s, begin);
    assert s1.sync == Tick.Connected(s.sync, connected);
    var serving := PlannedServes(s1, targets, late);
    RunsCompose(s, [begin], serving);
    events := [begin] + serving;
  }

  /** The last steps of a tick prune the journal and erase what is done. */
  lemma EndIsRun(s: State, owned: bool, runs': Tick.Runs, slot': Slot) returns (events: seq<Event>)
    requires s.pc == Ticking({}) && (s.entry || s.sync == map[])
    requires s.entry && runs' == map[] && !owned ==> !Busy(s.slot)
    requires runs' == Unconfirmed(s.sync)
    requires if s.entry && runs' == map[] && !owned then slot' == None else Tick.PrunesTo(runs', s.slot, slot')
    ensures Legal(s, events)
    ensures BenchOf(After(s, events)) == Bench(slot', runs' != map[], runs', Idle)
  {
    var pruned := slot';
    if s.entry && runs' == map[] && !owned {
      pruned := if Stable(s.slot).Some? then Pruned(s.slot, Stable(s.slot).value) else s.slot;
    }
    events := PruneIsRun(s, pruned);
    var s1 := After(s, events);
    OneStep(s1, Clean(owned));
    RunsCompose(s, events, [Clean(owned)]);
    events := events + [Clean(owned)];
  }

  /** A whole undisturbed tick over one partition, as the worker performs it, is a run:
      from a worker between ticks to the same worker between ticks. */
  lemma TickIsRun(
      s: State, connected: set<NodeId>, targets: set<NodeId>, late: set<NodeId>, owned: bool,
      runs': Tick.Runs, slot': Slot) returns (events: seq<Event>)
    requires s.pc.Idle? && targets <= connected && (s.entry || s.sync == map[])
    requires (s.entry || targets != {}) && runs' == map[] && !owned ==> !Busy(s.slot)
    requires var runs := Tick.Connected(s.sync, connected);
      Tick.TickEnds(runs, Tick.EndsOf(runs, targets, late, s.slot), s.entry || targets != {}, owned, s.slot, runs', slot')
    ensures Legal(s, events)
    ensures BenchOf(After(s, events)) == Bench(slot', runs' != map[], runs', Idle)
  {
    var runs := Tick.Connected(s.sync, connected);
    var ends := Tick.EndsOf(runs, targets, late, s.slot);
    assert ends.Keys == targets;
    assert !s.entry && targets == {} ==> Tick.RunsAfter(runs, ends, {}) == map[];
    var serving := BeginIsRun(s, connected, targets, late);
    var ending := EndIsRun(After(s, serving), owned, runs', slot');
    RunsCompose(s, serving, ending);
    events := serving + ending;
  }
}
