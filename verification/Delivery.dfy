/** What a join is given, in every run that sends no work down a branch again: its payload is
    that of the arrivals as they stand, and depends on nothing else. */
module Delivery {
  import opened Base
  import opened Json
  import opened Graphs
  import opened Rows
  import opened Routing
  import opened Store
  import opened Machine
  import opened Nesting
  import opened Tokens
  import opened Joins
  import Once
  import Settlement
  import Runner

  // The task has the payload and the senders of the arrivals there are.
  predicate Gives(arrivals: map<Place, Arrival>, t: Task) {
    && t.lineage.from.Some?
    && t.payload == ArrivalsPayload(arrivals, t.run, t.node, t.lineage.from.value)
    && t.lineage.arrivals == ArrivalSenders(arrivals, t.run, t.node, t.lineage.from.value)
  }

  predicate Delivered(tasks: seq<Task>, arrivals: map<Place, Arrival>) {
    forall c | 0 <= c < |tasks| && tasks[c].lineage.reason == JoinReason :: Gives(arrivals, tasks[c])
  }

  // The arrivals of two tables that are the same at one join for one fan-out.
  predicate SameArrivals(
    arrivals: map<Place, Arrival>, arrivals': map<Place, Arrival>, run: string, join: string, fanout: nat)
  {
    && (forall p | p in arrivals && p == Place(run, join, fanout, p.index) ::
          p in arrivals' && Entry(p.index, arrivals'[p]) == Entry(p.index, arrivals[p]))
    && (forall p | p in arrivals' && p == Place(run, join, fanout, p.index) :: p in arrivals)
  }

  lemma SameIndexes(arrivals: map<Place, Arrival>, arrivals': map<Place, Arrival>, run: string, join: string,
      fanout: nat)
    requires SameArrivals(arrivals, arrivals', run, join, fanout)
    ensures Indexes(arrivals, run, join, fanout) == Indexes(arrivals', run, join, fanout)
  {
    forall i: nat ensures i in Indexes(arrivals, run, join, fanout) <==> i in Indexes(arrivals', run, join, fanout) {
      var p := Place(run, join, fanout, i);
      assert p in arrivals <==> p in arrivals';
    }
  }

  // The payload of a join task is a function of those arrivals.
  lemma SamePayload(arrivals: map<Place, Arrival>, arrivals': map<Place, Arrival>, run: string, join: string,
      fanout: nat)
    requires SameArrivals(arrivals, arrivals', run, join, fanout)
    ensures ArrivalsPayload(arrivals, run, join, fanout) == ArrivalsPayload(arrivals', run, join, fanout)
    ensures ArrivalSenders(arrivals, run, join, fanout) == ArrivalSenders(arrivals', run, join, fanout)
  {
    hide Indexes, Ascending;
    SameIndexes(arrivals, arrivals', run, join, fanout);
    var order := Order(arrivals, run, join, fanout);
    forall i | 0 <= i < |order|
      ensures var p := Place(run, join, fanout, order[i]);
              p in arrivals && p in arrivals' && Entry(order[i], arrivals'[p]) == Entry(order[i], arrivals[p])
              && arrivals'[p].from == arrivals[p].from
    {
      var p := Place(run, join, fanout, order[i]);
      SenderInEntry(order[i], arrivals[p], arrivals'[p]);
    }
  }

  lemma SenderInEntry(index: nat, a: Arrival, b: Arrival)
    requires Entry(index, a) == Entry(index, b)
    ensures a.key == b.key && a.value == b.value && a.from == b.from
  {
    var x, y := Entry(index, a).entries, Entry(index, b).entries;
    assert x[1] == y[1] && x[2] == y[2] && x[3] == y[3];
  }

  // ------------------------------------------------------------------------
  // Writing one transition
  // ------------------------------------------------------------------------

  // The arrival of a branch not yet in changes nothing of what was dispatched; and the task
  // it may complete is given what has arrived.
  lemma RecordDelivers(
    db: Tables, returned: map<nat, Return>, id: nat, target: Node, hop: Hop, x: seq<Frame>, now: nat)
    requires id < |db.tasks| && x != [] && Delivered(db.tasks, db.arrivals)
    requires Linear(db, returned) && Free(db, returned, db.tasks[id].run, x)
    ensures var db' := Runner.RecordArrival(db, id, target, hop, x, now);
            Delivered(db'.tasks, db'.arrivals)
  {
    hide Linear, Free, Indexes, ArrivalsPayload, ArrivalSenders;
    var run := db.tasks[id].run;
    var p := PlaceOf(run, target.name, x);
    var db' := Runner.RecordArrival(db, id, target, hop, x, now);
    ArrivalIsNew(db, returned, run, target.name, x);
    forall c | 0 <= c < |db'.tasks| && db'.tasks[c].lineage.reason == JoinReason
      ensures Gives(db'.arrivals, db'.tasks[c])
    {
      if c < |db.tasks| {
        var t := db.tasks[c];
        assert db'.tasks[c] == t && Gives(db.arrivals, t);
        assert !IsDispatch(t, p.run, p.join, p.fanout);
        SamePayload(db.arrivals, db'.arrivals, t.run, t.node, t.lineage.from.value);
      }
    }
  }

  // A change to rows and none to arrivals.
  predicate AddsPlain(tasks: seq<Task>, tasks': seq<Task>) {
    && |tasks| <= |tasks'|
    && (forall c | 0 <= c < |tasks| ::
          && tasks'[c].run == tasks[c].run && tasks'[c].node == tasks[c].node
          && tasks'[c].payload == tasks[c].payload && tasks'[c].lineage == tasks[c].lineage)
    && (forall c | |tasks| <= c < |tasks'| :: tasks'[c].lineage.reason != JoinReason)
  }

  lemma RowsDeliver(db: Tables, db': Tables)
    requires Delivered(db.tasks, db.arrivals) && AddsPlain(db.tasks, db'.tasks) && db'.arrivals == db.arrivals
    ensures Delivered(db'.tasks, db'.arrivals)
  {
    hide ArrivalsPayload, ArrivalSenders;
    forall c | 0 <= c < |db'.tasks| && db'.tasks[c].lineage.reason == JoinReason
      ensures Gives(db'.arrivals, db'.tasks[c])
    {
      assert Gives(db.arrivals, db.tasks[c]);
    }
  }

  lemma RouteOneDelivers(
    db: Tables, returned: map<nat, Return>, id: nat, g: Graph, hops: seq<Hop>, fanning: bool, i: nat, now: nat)
    requires id < |db.tasks| && i < |hops| && Runner.Routable(g, db.tasks[id].branch, hops, fanning)
    requires Recorded(returned, id, g, hops, fanning) && Linear(db, returned) && Delivered(db.tasks, db.arrivals)
    requires AllFree(db, returned, db.tasks[id].run, Children(db.tasks[id].branch, returned, id)[i..])
    ensures var db' := Runner.RouteOne(db, id, g, hops, fanning, i, now);
            Delivered(db'.tasks, db'.arrivals)
  {
    hide Linear, Delivered, Free, Runner.RecordArrival;
    var xs := Children(db.tasks[id].branch, returned, id);
    assert xs[i..][0] == ChildFrames(id, db.tasks[id].branch, hops[i], i, |hops|, fanning);
    var target := g.nodes[hops[i].target];
    if target.join {
      RecordDelivers(db, returned, id, target, hops[i], xs[i], now);
    } else {
      RowsDeliver(db, Runner.EnqueueTransition(db, id, target, hops[i], xs[i], now));
    }
  }

  lemma {:induction false} RouteDelivers(
    db: Tables, returned: map<nat, Return>, id: nat, g: Graph, hops: seq<Hop>, fanning: bool, upto: nat, now: nat)
    requires id < |db.tasks| && upto <= |hops| && Runner.Routable(g, db.tasks[id].branch, hops, fanning)
    requires db.tasks[id].status == Done && Recorded(returned, id, g, hops, fanning)
    requires Nested(db.tasks, returned) && PlacesOk(db.arrivals, db.tasks, returned) && Linear(db, returned)
    requires AllFree(db, returned, db.tasks[id].run, Children(db.tasks[id].branch, returned, id))
    requires Delivered(db.tasks, db.arrivals)
    ensures var db' := Runner.Route(db, id, g, hops, fanning, upto, now);
            Delivered(db'.tasks, db'.arrivals)
  {
    hide Linear, AllFree, Delivered, Nested, PlacesOk, Runner.RouteOne;
    if upto > 0 {
      RouteDelivers(db, returned, id, g, hops, fanning, upto - 1, now);
      RoutePasses(db, returned, id, g, hops, fanning, upto - 1, now);
      var before := Runner.Route(db, id, g, hops, fanning, upto - 1, now);
      assert before.tasks[id] == db.tasks[id];
      RouteOneDelivers(before, returned, id, g, hops, fanning, upto - 1, now);
    }
  }

  // ------------------------------------------------------------------------
  // Every step
  // ------------------------------------------------------------------------

  lemma SuccessDelivers(s: State, a: Step)
    requires Inv(s) && Linear(s.db, s.returned) && Delivered(s.db.tasks, s.db.arrivals) && a.Succeed? && Enabled(s, a)
    ensures Delivered(Next(s, a).db.tasks, Next(s, a).db.arrivals)
  {
    hide Runner.Written, Runner.SettleRun, Runner.Route, Runner.Reading, Jsonable, IsFanOut, AllFree, Nested,
        PlacesOk, Linear, Delivered;
    var hops := Runner.Reading(s.db, a.id, a.g, a.value).value;
    var returned := Next(s, a).returned;
    var done := Finish(s.db, a.id, Done, Some(Jsonable(a.value)), hops == []);
    SplitFrees(s, a.id, returned[a.id], done);
    RowsDeliver(s.db, done);
    RouteDelivers(done, returned, a.id, a.g, hops, IsFanOut(a.value), |hops|, a.now);
    SuccessWrites(s.db, a.id, a.g, a.value, a.now);
  }

  lemma AddingDelivers(s: State, a: Step)
    requires Delivered(s.db.tasks, s.db.arrivals) && Enabled(s, a) && (a.Submit? || a.Fail?)
    ensures Delivered(Next(s, a).db.tasks, Next(s, a).db.arrivals)
  {
    hide Delivered, Runner.Priority, Next, Apply, Enabled;
    if a.Submit? {
      SubmitIs(s, a);
    } else {
      FailIs(s, a);
    }
    RowsDeliver(s.db, Next(s, a).db);
  }

  lemma SweepDelivers(s: State, a: Step)
    requires Delivered(s.db.tasks, s.db.arrivals) && Enabled(s, a) && (a.Recover? || a.Cancel?)
    ensures Delivered(Next(s, a).db.tasks, Next(s, a).db.arrivals)
  {
    hide Delivered, Next, Apply, Enabled;
    if a.Recover? {
      RecoverIs(s, a);
    } else {
      CancelIs(s, a);
    }
    RowsDeliver(s.db, Next(s, a).db);
  }

  lemma QuietDelivers(s: State, a: Step)
    requires Delivered(s.db.tasks, s.db.arrivals) && Enabled(s, a)
    requires a.Claim? || a.Park? || a.Unpark? || a.Crash? || a.Drop? || a.Pause? || a.Resume?
    ensures Delivered(Next(s, a).db.tasks, Next(s, a).db.arrivals)
  {
    hide Delivered, Next, Apply, Enabled;
    if a.Claim? {
      ClaimIs(s, a);
    } else if a.Park? || a.Unpark? {
      ParkIs(s, a);
    } else if a.Crash? || a.Drop? {
      CrashIs(s, a);
    } else {
      PauseIs(s, a);
    }
    RowsDeliver(s.db, Next(s, a).db);
  }

  lemma StepDelivers(s: State, a: Step)
    requires Inv(s) && Linear(s.db, s.returned) && Delivered(s.db.tasks, s.db.arrivals) && ForwardStep(a)
        && Enabled(s, a)
    ensures Delivered(Next(s, a).db.tasks, Next(s, a).db.arrivals)
  {
    hide Inv, Linear, Delivered, Enabled, Next;
    if a.Succeed? {
      SuccessDelivers(s, a);
    } else if a.Submit? || a.Fail? {
      AddingDelivers(s, a);
    } else if a.Recover? || a.Cancel? {
      SweepDelivers(s, a);
    } else {
      QuietDelivers(s, a);
    }
  }

  lemma {:induction false} RunDelivers(s: State, trace: seq<Step>)
    requires Inv(s) && Linear(s.db, s.returned) && Delivered(s.db.tasks, s.db.arrivals) && ForwardRun(s, trace)
    ensures Delivered(End(s, trace).db.tasks, End(s, trace).db.arrivals)
    decreases |trace|
  {
    hide Inv, Linear, Delivered, Enabled, Next;
    if trace != [] {
      assert ForwardStep(trace[0]);
      StepLinear(s, trace[0]);
      StepDelivers(s, trace[0]);
      RunDelivers(Next(s, trace[0]), trace[1..]);
    }
  }

  lemma EmptyDelivers()
    ensures Inv(Empty) && Linear(Empty.db, Empty.returned) && Delivered(Empty.db.tasks, Empty.db.arrivals)
  {
  }

  // ------------------------------------------------------------------------
  // What a join is given
  // ------------------------------------------------------------------------

  // In every run that sends no work down a branch again, whatever happens between the
  // landings, a join task has the payload and the senders of the arrivals of its fan-out.
  lemma JoinHasArrivals(trace: seq<Step>, c: nat)
    requires ForwardRun(Empty, trace)
    ensures var s := End(Empty, trace);
            c < |s.db.tasks| && s.db.tasks[c].lineage.reason == JoinReason ==>
              var t := s.db.tasks[c];
              && t.lineage.from.Some?
              && t.payload == ArrivalsPayload(s.db.arrivals, t.run, t.node, t.lineage.from.value)
              && t.lineage.arrivals == ArrivalSenders(s.db.arrivals, t.run, t.node, t.lineage.from.value)
  {
    hide Inv, Linear, ArrivalsPayload, ArrivalSenders;
    EmptyDelivers();
    RunDelivers(Empty, trace);
    var s := End(Empty, trace);
    assert c < |s.db.tasks| && s.db.tasks[c].lineage.reason == JoinReason ==> Gives(s.db.arrivals, s.db.tasks[c]);
  }

  // Entry by entry: branch i of the fan-out stands at place i, under the payload it was
  // given, with what the row that landed it returned to the join.
  lemma JoinEntries(trace: seq<Step>, c: nat, i: nat)
    requires ForwardRun(Empty, trace)
    ensures var s := End(Empty, trace);
            c < |s.db.tasks| && s.db.tasks[c].lineage.reason == JoinReason ==>
              var t := s.db.tasks[c];
              && t.lineage.from.Some? && t.lineage.from.value in s.returned
              && var hops := s.returned[t.lineage.from.value].hops;
                 && t.payload.JList? && |t.payload.items| == |hops|
                 && (i < |hops| ==>
                       var p := Place(t.run, t.node, t.lineage.from.value, i);
                       && p in s.db.arrivals && t.payload.items[i] == Entry(i, s.db.arrivals[p])
                       && s.db.arrivals[p].key == hops[i].payload
                       && SentBy(s.returned, t.node, s.db.arrivals[p].from, s.db.arrivals[p].value))
  {
    hide SentBy, FrameOk, Once.ExactlyOnce, Linear, End, Indexes, ArrivalsPayload, ArrivalSenders;
    Settlement.EmptySound();
    Settlement.RunSound(Empty, trace);
    JoinHasArrivals(trace, c);
    var s := End(Empty, trace);
    if c < |s.db.tasks| && s.db.tasks[c].lineage.reason == JoinReason {
      EntriesAre(s, s.db.tasks[c], i);
    }
  }

  lemma EntriesAre(s: State, t: Task, i: nat)
    requires Inv(s) && JoinsInv(s.db, s.returned) && DispatchOk(s.db.tasks, s.db.arrivals, s.returned, t)
        && Gives(s.db.arrivals, t)
    ensures t.lineage.from.Some? && t.lineage.from.value in s.returned
    ensures var hops := s.returned[t.lineage.from.value].hops;
            && t.payload.JList? && |t.payload.items| == |hops|
            && (i < |hops| ==>
                  var p := Place(t.run, t.node, t.lineage.from.value, i);
                  && p in s.db.arrivals && t.payload.items[i] == Entry(i, s.db.arrivals[p])
                  && s.db.arrivals[p].key == hops[i].payload
                  && SentBy(s.returned, t.node, s.db.arrivals[p].from, s.db.arrivals[p].value))
  {
    hide SentBy, Nested, ReturnsOk, LiveOk, RunsOk, Dispatched, OneDispatch, Prompt, Trodden, Indexes;
    var fanout := t.lineage.from.value;
    var n := |s.returned[fanout].hops|;
    IndexesBelow(s.db, s.returned, t.run, t.node, fanout);
    FullOrder(s.db.arrivals, t.run, t.node, fanout, n);
    if i < n {
      var p := Place(t.run, t.node, fanout, i);
      assert PlaceOk(s.db.tasks, s.returned, p, s.db.arrivals[p]);
    }
  }

  // So a join is confluent over whole runs: two runs, whatever their interleavings, in which
  // the same branches have arrived give its task the same payload and lineage.
  lemma RunsAreConfluent(trace: seq<Step>, trace': seq<Step>, c: nat, c': nat)
    requires ForwardRun(Empty, trace) && ForwardRun(Empty, trace')
    ensures var s, s' := End(Empty, trace), End(Empty, trace');
            && c < |s.db.tasks| && c' < |s'.db.tasks| && SameDispatch(s.db.tasks[c], s'.db.tasks[c'])
            && s.db.tasks[c].lineage.from.Some?
            && SameArrivals(s.db.arrivals, s'.db.arrivals, s.db.tasks[c].run, s.db.tasks[c].node,
                s.db.tasks[c].lineage.from.value) ==>
              s.db.tasks[c].payload == s'.db.tasks[c'].payload && s.db.tasks[c].lineage == s'.db.tasks[c'].lineage
  {
    hide SameArrivals, ArrivalsPayload, ArrivalSenders;
    JoinHasArrivals(trace, c);
    JoinHasArrivals(trace', c');
    var s, s' := End(Empty, trace), End(Empty, trace');
    if c < |s.db.tasks| && c' < |s'.db.tasks| && SameDispatch(s.db.tasks[c], s'.db.tasks[c'])
      && s.db.tasks[c].lineage.from.Some?
      && SameArrivals(s.db.arrivals, s'.db.arrivals, s.db.tasks[c].run, s.db.tasks[c].node,
          s.db.tasks[c].lineage.from.value)
    {
      var t := s.db.tasks[c];
      SamePayload(s.db.arrivals, s'.db.arrivals, t.run, t.node, t.lineage.from.value);
    }
  }
}
