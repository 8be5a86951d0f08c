/** When a join can be rerun: by the lineage of its newest row, in every run of a fixed graph
    that overwrites no done row. */
module Replays {
  import opened Base
  import opened Json
  import opened Graphs
  import opened Rows
  import opened Routing
  import opened Store
  import opened Machine
  import opened Nesting
  import opened Joins
  import Runner
  import Ops
  import Tokens

  // Which nodes of which run are joins, in a run whose graph is not replaced.
  type Shape = (string, string) -> bool

  predicate HasShape(g: Graph, run: string, joins: Shape) {
    forall n | n in g.nodes :: g.nodes[n].join == joins(run, n)
  }

  predicate OfShape(graphs: map<string, Graph>, db: Tables, run: string, joins: Shape) {
    run in db.runs && db.runs[run].workflow in graphs ==> HasShape(graphs[db.runs[run].workflow], run, joins)
  }

  predicate SameGraph(s: State, a: Step, joins: Shape) {
    match a
    case Submit(graphs, workflow, run, _, _) => workflow in graphs ==> HasShape(graphs[workflow], run, joins)
    case Succeed(id, g, _, _) => id < |s.db.tasks| ==> HasShape(g, s.db.tasks[id].run, joins)
    case Rerun(graphs, run, _, _) => OfShape(graphs, s.db, run, joins)
    case Move(graphs, id, _, _) => id < |s.db.tasks| ==> OfShape(graphs, s.db, s.db.tasks[id].run, joins)
    case _ => true
  }

  predicate FixedRun(s: State, trace: seq<Step>, joins: Shape)
    decreases |trace|
  {
    trace == [] ||
    (Enabled(s, trace[0]) && !OverwritesDone(s, trace[0]) && SameGraph(s, trace[0], joins)
     && FixedRun(Next(s, trace[0]), trace[1..], joins))
  }

  // ------------------------------------------------------------------------
  // Where the row of a join comes from
  // ------------------------------------------------------------------------

  predicate RowAtJoin(arrivals: map<Place, Arrival>, t: Task) {
    match t.lineage.reason
    case StartReason => t.lineage.from.None?
    case TransitionReason => false
    case MoveReason => false
    case JoinReason => true
    case RerunReason => t.lineage.from.Some? && Indexes(arrivals, t.run, t.node, t.lineage.from.value) != {}
    case RetryReason => t.lineage.from.Some?
    case ManualRetryReason => t.lineage.from.Some?
  }

  predicate AtJoins(tasks: seq<Task>, arrivals: map<Place, Arrival>, joins: Shape) {
    forall c | 0 <= c < |tasks| && joins(tasks[c].run, tasks[c].node) :: RowAtJoin(arrivals, tasks[c])
  }

  lemma IndexesGrow(arrivals: map<Place, Arrival>, arrivals': map<Place, Arrival>, run: string, join: string,
      fanout: nat)
    requires arrivals.Keys <= arrivals'.Keys
    ensures Indexes(arrivals, run, join, fanout) <= Indexes(arrivals', run, join, fanout)
  {
    forall i | i in Indexes(arrivals, run, join, fanout) ensures i in Indexes(arrivals', run, join, fanout) {
      assert Place(run, join, fanout, i) in arrivals.Keys;
    }
  }

  // Rows keep where they came from, arrivals stay, and the rows added are as they should be.
  predicate AddsAtJoins(db: Tables, db': Tables, joins: Shape) {
    && |db.tasks| <= |db'.tasks| && db.arrivals.Keys <= db'.arrivals.Keys
    && (forall c | 0 <= c < |db.tasks| ::
          && db'.tasks[c].run == db.tasks[c].run && db'.tasks[c].node == db.tasks[c].node
          && db'.tasks[c].lineage == db.tasks[c].lineage)
    && (forall c | |db.tasks| <= c < |db'.tasks| && joins(db'.tasks[c].run, db'.tasks[c].node) ::
          RowAtJoin(db'.arrivals, db'.tasks[c]))
  }

  lemma AtJoinsKept(db: Tables, db': Tables, joins: Shape)
    requires AtJoins(db.tasks, db.arrivals, joins) && AddsAtJoins(db, db', joins)
    ensures AtJoins(db'.tasks, db'.arrivals, joins)
  {
    hide Indexes;
    forall c | 0 <= c < |db'.tasks| && joins(db'.tasks[c].run, db'.tasks[c].node)
      ensures RowAtJoin(db'.arrivals, db'.tasks[c])
    {
      var t := db'.tasks[c];
      if c < |db.tasks| {
        assert RowAtJoin(db.arrivals, db.tasks[c]);
        if t.lineage.from.Some? {
          IndexesGrow(db.arrivals, db'.arrivals, t.run, t.node, t.lineage.from.value);
        }
      }
    }
  }

  // A transition adds a row at a node that is no join, or a join's dispatch.
  lemma RouteOneAtJoins(db: Tables, id: nat, g: Graph, hops: seq<Hop>, fanning: bool, i: nat, now: nat, joins: Shape)
    requires id < |db.tasks| && i < |hops| && Runner.Routable(g, db.tasks[id].branch, hops, fanning)
    requires NamesOk(g.nodes) && HasShape(g, db.tasks[id].run, joins)
    ensures AddsAtJoins(db, Runner.RouteOne(db, id, g, hops, fanning, i, now), joins)
  {
    hide Indexes, Fired, ArrivalsPayload, ArrivalSenders;
  }

  lemma {:induction false} RouteAtJoins(
    db: Tables, id: nat, g: Graph, hops: seq<Hop>, fanning: bool, upto: nat, now: nat, joins: Shape)
    requires id < |db.tasks| && upto <= |hops| && Runner.Routable(g, db.tasks[id].branch, hops, fanning)
    requires NamesOk(g.nodes) && HasShape(g, db.tasks[id].run, joins) && AtJoins(db.tasks, db.arrivals, joins)
    ensures var db' := Runner.Route(db, id, g, hops, fanning, upto, now);
            AtJoins(db'.tasks, db'.arrivals, joins)
  {
    hide AtJoins, AddsAtJoins, HasShape, Runner.RouteOne;
    if upto > 0 {
      RouteAtJoins(db, id, g, hops, fanning, upto - 1, now, joins);
      var before := Runner.Route(db, id, g, hops, fanning, upto - 1, now);
      RouteOneAtJoins(before, id, g, hops, fanning, upto - 1, now, joins);
      AtJoinsKept(before, Runner.RouteOne(before, id, g, hops, fanning, upto - 1, now), joins);
    }
  }

  // ------------------------------------------------------------------------
  // Every step
  // ------------------------------------------------------------------------

  lemma SuccessAtJoins(s: State, a: Step, joins: Shape)
    requires AtJoins(s.db.tasks, s.db.arrivals, joins) && a.Succeed? && Enabled(s, a) && SameGraph(s, a, joins)
    ensures AtJoins(Next(s, a).db.tasks, Next(s, a).db.arrivals, joins)
  {
    hide Runner.Written, Runner.SettleRun, Runner.Route, Runner.Reading, Jsonable, IsFanOut, AtJoins, HasShape;
    var hops := Runner.Reading(s.db, a.id, a.g, a.value).value;
    var done := Finish(s.db, a.id, Done, Some(Jsonable(a.value)), hops == []);
    AtJoinsKept(s.db, done, joins);
    RouteAtJoins(done, a.id, a.g, hops, IsFanOut(a.value), |hops|, a.now, joins);
    SuccessWrites(s.db, a.id, a.g, a.value, a.now);
  }

  lemma SubmitAtJoins(s: State, a: Step, joins: Shape)
    requires AtJoins(s.db.tasks, s.db.arrivals, joins) && Enabled(s, a) && a.Submit?
    ensures AtJoins(Next(s, a).db.tasks, Next(s, a).db.arrivals, joins)
  {
    hide AtJoins, Runner.Priority;
    AtJoinsKept(s.db, Next(s, a).db, joins);
  }

  lemma FailAtJoins(s: State, a: Step, joins: Shape)
    requires AtJoins(s.db.tasks, s.db.arrivals, joins) && Enabled(s, a) && a.Fail?
    ensures AtJoins(Next(s, a).db.tasks, Next(s, a).db.arrivals, joins)
  {
    hide AtJoins;
    AtJoinsKept(s.db, Next(s, a).db, joins);
  }

  // One row more, which is as it should be.
  lemma RowAddedAtJoins(db: Tables, tasks: seq<Task>, row: Task, db': Tables, joins: Shape)
    requires AtJoins(db.tasks, db.arrivals, joins) && db'.tasks == tasks + [row] && db'.arrivals == db.arrivals
    requires |tasks| == |db.tasks| && forall c | 0 <= c < |tasks| ::
               tasks[c].run == db.tasks[c].run && tasks[c].node == db.tasks[c].node
                   && tasks[c].lineage == db.tasks[c].lineage
    requires joins(row.run, row.node) ==> RowAtJoin(db.arrivals, row)
    ensures AtJoins(db'.tasks, db'.arrivals, joins)
  {
    hide AtJoins, RowAtJoin;
    AtJoinsKept(db, db', joins);
  }

  lemma RetryAtJoins(s: State, a: Step, joins: Shape)
    requires AtJoins(s.db.tasks, s.db.arrivals, joins) && Enabled(s, a) && a.Retry?
    ensures AtJoins(Next(s, a).db.tasks, Next(s, a).db.arrivals, joins)
  {
    hide AtJoins, Indexes, Ops.Lookup;
    RowAddedAtJoins(s.db, s.db.tasks, Runner.RetryOf(s.db.tasks[a.id], a.id, ManualRetryReason), Next(s, a).db, joins);
  }

  // The row a rerun adds: a join's has arrivals to replay.
  lemma RerunAdds(db: Tables, graphs: map<string, Graph>, run: string, node: string, now: nat)
    requires Registered(graphs) && Ops.Rerun(db, graphs, run, node, now).Ok?
    ensures run in db.runs && Ops.Lookup(graphs, db.runs[run].workflow, node).Ok?
    ensures var target := Ops.Lookup(graphs, db.runs[run].workflow, node).value;
            var row, db' := Ops.RerunRow(db, run, target, now), Ops.Rerun(db, graphs, run, node, now).value;
            && row.Ok? && db'.tasks == db.tasks + [row.value] && db'.arrivals == db.arrivals
            && row.value.run == run && row.value.node == node && target.name == node
            && (target.join ==> RowAtJoin(db.arrivals, row.value))
  {
    hide Indexes, ArrivalsPayload, ArrivalSenders, Runner.Priority, Ops.LastForNode, Ops.NextAttempt;
    RegisteredNames(graphs, db.runs[run].workflow, node);
  }

  lemma RerunAtJoins(s: State, a: Step, joins: Shape)
    requires AtJoins(s.db.tasks, s.db.arrivals, joins) && Enabled(s, a) && a.Rerun? && SameGraph(s, a, joins)
    ensures AtJoins(Next(s, a).db.tasks, Next(s, a).db.arrivals, joins)
  {
    hide AtJoins, RowAtJoin, Ops.RerunRow, Ops.Rerun;
    RerunAdds(s.db, a.graphs, a.run, a.node, a.now);
    var target := Ops.Lookup(a.graphs, s.db.runs[a.run].workflow, a.node).value;
    assert target.join == joins(a.run, a.node);
    RowAddedAtJoins(s.db, s.db.tasks, Ops.RerunRow(s.db, a.run, target, a.now).value, Next(s, a).db, joins);
  }

  lemma RegisteredNames(graphs: map<string, Graph>, workflow: string, node: string)
    requires Registered(graphs) && Ops.Lookup(graphs, workflow, node).Ok?
    ensures Ops.Lookup(graphs, workflow, node).value.name == node
  {
  }

  lemma MoveAtJoins(s: State, a: Step, joins: Shape)
    requires AtJoins(s.db.tasks, s.db.arrivals, joins) && Enabled(s, a) && a.Move? && SameGraph(s, a, joins)
    ensures AtJoins(Next(s, a).db.tasks, Next(s, a).db.arrivals, joins)
  {
    hide AtJoins, RowAtJoin, Ops.Move;
    MoveAdds(s.db, a.graphs, a.id, a.node, a.now);
    var t := s.db.tasks[a.id];
    MovesToNode(s.db, a.graphs, a.id, a.node, a.now);
    var stopped := if Pending(t.status) then Ops.CancelTask(s.db, a.id) else s.db;
    RowAddedAtJoins(s.db, stopped.tasks, Next(s, a).db.tasks[|s.db.tasks|], Next(s, a).db, joins);
  }

  // A move is to a node that is no join.
  lemma MovesToNode(db: Tables, graphs: map<string, Graph>, id: nat, node: string, now: nat)
    requires Registered(graphs) && Ops.Move(db, graphs, id, node, now).Ok?
    ensures id < |db.tasks| && db.tasks[id].run in db.runs && db.runs[db.tasks[id].run].workflow in graphs
    ensures var g := graphs[db.runs[db.tasks[id].run].workflow];
            node in g.nodes && !g.nodes[node].join
    ensures var tasks := Ops.Move(db, graphs, id, node, now).value.tasks;
            |tasks| == |db.tasks| + 1 && tasks[|db.tasks|].node == node
  {
    RegisteredNames(graphs, db.runs[db.tasks[id].run].workflow, node);
  }

  lemma StatusAtJoins(s: State, a: Step, joins: Shape)
    requires AtJoins(s.db.tasks, s.db.arrivals, joins) && Enabled(s, a) && (a.SetStatus? || a.Recover? || a.Cancel?)
    ensures AtJoins(Next(s, a).db.tasks, Next(s, a).db.arrivals, joins)
  {
    hide AtJoins;
    AtJoinsKept(s.db, Next(s, a).db, joins);
  }

  lemma QuietAtJoins(s: State, a: Step, joins: Shape)
    requires AtJoins(s.db.tasks, s.db.arrivals, joins) && Enabled(s, a)
    requires a.Claim? || a.Park? || a.Unpark? || a.Crash? || a.Drop? || a.Pause? || a.Resume?
    ensures AtJoins(Next(s, a).db.tasks, Next(s, a).db.arrivals, joins)
  {
    hide AtJoins;
    AtJoinsKept(s.db, Next(s, a).db, joins);
  }

  lemma StepAtJoins(s: State, a: Step, joins: Shape)
    requires AtJoins(s.db.tasks, s.db.arrivals, joins) && Enabled(s, a) && SameGraph(s, a, joins)
    ensures AtJoins(Next(s, a).db.tasks, Next(s, a).db.arrivals, joins)
  {
    hide AtJoins, Enabled, Next, SameGraph;
    if a.Succeed? {
      SuccessAtJoins(s, a, joins);
    } else if a.Submit? {
      SubmitAtJoins(s, a, joins);
    } else if a.Fail? {
      FailAtJoins(s, a, joins);
    } else if a.Retry? {
      RetryAtJoins(s, a, joins);
    } else if a.Rerun? {
      RerunAtJoins(s, a, joins);
    } else if a.Move? {
      MoveAtJoins(s, a, joins);
    } else if a.SetStatus? || a.Recover? || a.Cancel? {
      StatusAtJoins(s, a, joins);
    } else {
      QuietAtJoins(s, a, joins);
    }
  }

  lemma {:induction false} RunAtJoins(s: State, trace: seq<Step>, joins: Shape)
    requires AtJoins(s.db.tasks, s.db.arrivals, joins) && FixedRun(s, trace, joins)
    ensures KeepingRun(s, trace) && IsRun(s, trace)
    ensures AtJoins(End(s, trace).db.tasks, End(s, trace).db.arrivals, joins)
    decreases |trace|
  {
    hide AtJoins, Enabled, Next, SameGraph, OverwritesDone;
    if trace != [] {
      StepAtJoins(s, trace[0], joins);
      RunAtJoins(Next(s, trace[0]), trace[1..], joins);
    }
  }

  // ------------------------------------------------------------------------
  // Rerunning a join
  // ------------------------------------------------------------------------

  // The row was retried after its own fan-out had sent a branch round to the join again.
  predicate CameRound(s: State, t: Task)
    requires t.lineage.from.Some?
  {
    var p := t.lineage.from.value;
    && p < |s.db.tasks| && s.db.tasks[p].status == Done && p in s.returned && s.returned[p].fanning
    && Indexes(s.db.arrivals, t.run, t.node, p) != {}
  }

  // A join can be rerun exactly when its newest row is a dispatch, or a rerun, and not when
  // it is a retry, automatic or not; unless the row that was retried is itself a done fan-out
  // of the join's with a branch that came round.
  lemma RerunAccepted(trace: seq<Step>, joins: Shape, run: string, target: Node, now: nat)
    requires FixedRun(Empty, trace, joins) && target.join && joins(run, target.name)
    ensures IsRun(Empty, trace)
    ensures var s := End(Empty, trace);
            var last := Ops.LastForNode(s.db.tasks, run, target.name);
            Ops.RerunRow(s.db, run, target, now).Ok? <==>
              && last.Some?
              && var t := s.db.tasks[last.value];
                 || t.lineage.reason in {JoinReason, RerunReason}
                 || (t.lineage.reason in {RetryReason, ManualRetryReason} && t.lineage.from.Some? && CameRound(s, t))
    ensures Ops.RerunRow(End(Empty, trace).db, run, target, now).Err? ==>
              Ops.RerunRow(End(Empty, trace).db, run, target, now).error == Ops.Conflict
  {
    hide Ops.LastForNode, Ops.NextAttempt, ArrivalsPayload, ArrivalSenders, Indexes, DispatchOk, FrameOk;
    RunAtJoins(Empty, trace, joins);
    JoinsHold(trace);
    var s := End(Empty, trace);
    var last := Ops.LastForNode(s.db.tasks, run, target.name);
    if last.Some? {
      var t := s.db.tasks[last.value];
      assert RowAtJoin(s.db.arrivals, t);
      if t.lineage.reason == JoinReason {
        DispatchHasArrivals(s, last.value);
      }
      if t.lineage.from.Some? {
        ArrivedUnderDone(s, t.run, t.node, t.lineage.from.value);
      }
    }
  }

  // A fan-out with arrivals at a join is a done row that fanned out.
  lemma ArrivedUnderDone(s: State, run: string, join: string, p: nat)
    requires Inv(s)
    ensures Indexes(s.db.arrivals, run, join, p) != {} ==>
              p < |s.db.tasks| && s.db.tasks[p].status == Done && p in s.returned && s.returned[p].fanning
  {
    if i :| i in Indexes(s.db.arrivals, run, join, p) {
      assert PlaceOk(s.db.tasks, s.returned, Place(run, join, p, i), s.db.arrivals[Place(run, join, p, i)]);
    }
  }

  lemma DispatchHasArrivals(s: State, c: nat)
    requires Inv(s) && JoinsInv(s.db, s.returned) && c < |s.db.tasks| && s.db.tasks[c].lineage.reason == JoinReason
    ensures var t := s.db.tasks[c];
            t.lineage.from.Some? && Indexes(s.db.arrivals, t.run, t.node, t.lineage.from.value) != {}
  {
    hide PayloadOk;
    var t := s.db.tasks[c];
    assert DispatchOk(s.db.tasks, s.db.arrivals, s.returned, t);
    assert Place(t.run, t.node, t.lineage.from.value, 0) in s.db.arrivals;
    assert 0 in Indexes(s.db.arrivals, t.run, t.node, t.lineage.from.value);
  }

  // ------------------------------------------------------------------------
  // What a rerun replays
  // ------------------------------------------------------------------------

  // The branches that have arrived, each once, in ascending order.
  ghost predicate InOrder(arrivals: map<Place, Arrival>, run: string, join: string, fanout: nat, order: seq<nat>) {
    && (forall j, k | 0 <= j < k < |order| :: order[j] < order[k])
    && forall i: nat :: i in order <==> Place(run, join, fanout, i) in arrivals
  }

  // The row has the entry and the sender of each of these arrivals, as they stand.
  predicate HasEntries(arrivals: map<Place, Arrival>, row: Task, fanout: nat, order: seq<nat>) {
    && row.payload.JList? && |row.payload.items| == |order| == |row.lineage.arrivals|
    && forall k | 0 <= k < |order| ::
         && Place(row.run, row.node, fanout, order[k]) in arrivals
         && row.payload.items[k] == Entry(order[k], arrivals[Place(row.run, row.node, fanout, order[k])])
         && row.lineage.arrivals[k] == arrivals[Place(row.run, row.node, fanout, order[k])].from
  }

  // The row has every branch's entry, as the arrivals stand.
  predicate Replayed(s: State, row: Task, fanout: nat)
    requires fanout in s.returned
  {
    && PayloadOk(s.returned, row, s.returned[fanout].hops)
    && forall i | 0 <= i < |s.returned[fanout].hops| ::
         && Place(row.run, row.node, fanout, i) in s.db.arrivals
         && row.payload.items[i] == Entry(i, s.db.arrivals[Place(row.run, row.node, fanout, i)])
  }

  lemma {:induction false} Ascends(s: set<nat>)
    ensures forall j, k | 0 <= j < k < |Ascending(s)| :: Ascending(s)[j] < Ascending(s)[k]
    decreases |s|
  {
    if s != {} {
      var least, rest := Least(s), s - {Least(s)};
      var tail := Ascending(rest);
      Ascends(rest);
      assert Ascending(s) == [least] + tail;
      forall k | 0 <= k < |tail| ensures least < tail[k] {
        assert tail[k] in rest;
      }
    }
  }

  lemma {:induction false} AscendingHas(s: set<nat>, i: nat)
    requires i in s
    ensures i in Ascending(s)
    decreases |s|
  {
    var least := Least(s);
    assert Ascending(s)[0] == least;
    if i != least {
      AscendingHas(s - {least}, i);
    }
  }

  lemma OrderIs(arrivals: map<Place, Arrival>, run: string, join: string, fanout: nat)
    ensures InOrder(arrivals, run, join, fanout, Order(arrivals, run, join, fanout))
  {
    hide Ascending;
    var indexes := Indexes(arrivals, run, join, fanout);
    Ascends(indexes);
    forall i: nat ensures i in Order(arrivals, run, join, fanout) <==> Place(run, join, fanout, i) in arrivals {
      if Place(run, join, fanout, i) in arrivals {
        assert i in indexes;
        AscendingHas(indexes, i);
      }
    }
  }

  // An accepted rerun of a join, whatever its newest row is: it runs under the fan-out and
  // the stack of that row, with the arrivals there as they stand, in branch order. It has
  // every branch's exactly when the join was dispatched for that fan-out; so always after a
  // dispatch, and after any reruns of one.
  lemma RerunReplaysJoin(trace: seq<Step>, run: string, target: Node, now: nat) returns (order: seq<nat>)
    requires KeepingRun(Empty, trace) && target.join
    ensures IsRun(Empty, trace)
    ensures var s := End(Empty, trace);
            var last, row := Ops.LastForNode(s.db.tasks, run, target.name), Ops.RerunRow(s.db, run, target, now);
            row.Ok? ==>
              && last.Some? && s.db.tasks[last.value].lineage.from.Some?
              && var p := s.db.tasks[last.value].lineage.from.value;
                 && p in s.returned && s.returned[p].fanning
                 && row.value.run == run && row.value.node == target.name
                 && row.value.branch == s.db.tasks[last.value].branch && row.value.lineage.from == Some(p)
                 && InOrder(s.db.arrivals, run, target.name, p, order)
                 && HasEntries(s.db.arrivals, row.value, p, order)
                 && (Replayed(s, row.value, p) <==> Fired(s.db.tasks, run, target.name, p))
                 && (s.db.tasks[last.value].lineage.reason == JoinReason ==> Fired(s.db.tasks, run, target.name, p))
  {
    hide Ops.NextAttempt, Replayed, Indexes, ArrivalsPayload, ArrivalSenders, Inv, JoinsInv, InOrder, HasEntries, Order,
        Fired;
    JoinsHold(trace);
    var s := End(Empty, trace);
    var last, row := Ops.LastForNode(s.db.tasks, run, target.name), Ops.RerunRow(s.db, run, target, now);
    order := [];
    if row.Ok? {
      var t := s.db.tasks[last.value];
      var p := t.lineage.from.value;
      order := Order(s.db.arrivals, run, target.name, p);
      OrderIs(s.db.arrivals, run, target.name, p);
      ArrivedUnderDone(s, run, target.name, p);
      EntriesInOrder(s.db.arrivals, row.value, p);
      ReplaysWhenFired(s, run, target, row.value, p, now);
      if t.lineage.reason == JoinReason {
        DispatchFires(s.db.tasks, last.value, run, target.name, p);
      }
    }
  }

  lemma DispatchFires(tasks: seq<Task>, id: nat, run: string, node: string, p: nat)
    requires id < |tasks| && IsDispatch(tasks[id], run, node, p)
    ensures Fired(tasks, run, node, p)
  {
  }

  lemma EntriesInOrder(arrivals: map<Place, Arrival>, row: Task, p: nat)
    requires row.payload == ArrivalsPayload(arrivals, row.run, row.node, p)
    requires row.lineage.arrivals == ArrivalSenders(arrivals, row.run, row.node, p)
    ensures HasEntries(arrivals, row, p, Order(arrivals, row.run, row.node, p))
  {
    hide Order;
  }

  lemma ReplaysWhenFired(s: State, run: string, target: Node, row: Task, p: nat, now: nat)
    requires Inv(s) && JoinsInv(s.db, s.returned) && p in s.returned && row.run == run && row.node == target.name
    requires Indexes(s.db.arrivals, run, target.name, p) != {}
    requires row.payload == ArrivalsPayload(s.db.arrivals, run, target.name, p)
    requires row.lineage.arrivals == ArrivalSenders(s.db.arrivals, run, target.name, p)
    ensures Replayed(s, row, p) <==> Fired(s.db.tasks, run, target.name, p)
  {
    hide Nested, ReturnsOk, LiveOk, RunsOk, Dispatched, OneDispatch, Prompt, Trodden, ArrivalsPayload, ArrivalSenders,
        EntryOf, Fired;
    var i :| i in Indexes(s.db.arrivals, run, target.name, p);
    FiredExactly(s, Place(run, target.name, p, i));
    if Tokens.AllArrived(s.db.arrivals, run, target.name, p, |s.returned[p].hops|) {
      FullPayload(s.db, s.returned, run, target, p, row.branch, now);
    }
  }

  // ------------------------------------------------------------------------
  // A join that cannot be rerun
  // ------------------------------------------------------------------------

  // A start node that fans out to one join.
  const StartNode := Node("a", ["j"], false, true, false, None, None, 0)
  const JoinNode := Node("j", [], true, false, true, None, None, 1)
  const Gathering := Graph("w", map["a" := StartNode, "j" := JoinNode], "a")

  const Both := List([Transition("j", Null), Transition("j", Null)])
  const BothHops := [Hop("j", JNull), Hop("j", JNull)]

  const Submitting := Step.Submit(map["w" := Gathering], "w", "r", JNull, 0)

  function IsJoin(run: string, node: string): bool {
    node == "j"
  }

  lemma GatheringIs(db: Tables)
    requires |db.tasks| == 1 && db.tasks[0].node == "a" && db.tasks[0].branch == []
    ensures Finalized(Gathering) && HasShape(Gathering, "r", IsJoin) && IsFanOut(Both)
    ensures Runner.Reading(db, 0, Gathering, Both) == Ok(BothHops)
  {
    assert "a" != "j" by {
      assert "a"[0] != "j"[0];
    }
    assert Items(Both)[0].Transition? && Items(Both)[1].Transition?;
    assert Explicit(Both).value == BothHops;
    assert StartNode.edges[0] == "j";
  }

  // The one row of the run, in progress.
  predicate Begun(s: State) {
    && |s.db.tasks| == 1 && s.db.tasks[0].node == "a" && s.db.tasks[0].branch == [] && s.db.tasks[0].run == "r"
    && s.db.tasks[0].status == InProgress && s.db.tasks[0].lineage.reason == StartReason
    && s.live == {0} && s.db.arrivals == map[]
    && s.db.runs == map["r" := Run("w", Running, None, None)]
  }

  lemma Begins() returns (s: State)
    ensures FixedRun(Empty, [Submitting, Claim(0)], IsJoin) && IsRun(Empty, [Submitting, Claim(0)])
    ensures s == End(Empty, [Submitting, Claim(0)]) && Begun(s)
  {
    var start := Tables(map["r" := Run("w", Queued, None, None)],
        [Runner.NewTask("r", StartNode, JNull, 1, 0, [], Lineage(StartReason, None, []))], map[], []);
    GatheringIs(start);
    var s1 := Next(Empty, Submitting);
    assert s1.db.tasks[0].status == Ready;
    s := Next(s1, Claim(0));
    var trace := [Submitting, Claim(0)];
    assert trace[1..] == [Claim(0)] && trace[1..][1..] == [];
    assert IsRun(s, []) && IsRun(s1, [Claim(0)]) && FixedRun(s, [], IsJoin) && FixedRun(s1, [Claim(0)], IsJoin);
  }

  function BothBranches(): Branches {
    Branches("r", 0, [], [0, 0], [Frame(0, 0, 2, JNull), Frame(0, 1, 2, JNull)], BothHops)
  }

  // Writing the return lands both branches, and the join is dispatched.
  lemma BothLand(db: Tables)
    requires |db.tasks| == 1 && db.tasks[0].node == "a" && db.tasks[0].branch == [] && db.tasks[0].run == "r"
    requires db.tasks[0].lineage.reason != JoinReason && db.arrivals == map[]
    requires Runner.Routable(Gathering, [], BothHops, true)
    ensures var r := Runner.Route(db, 0, Gathering, BothHops, true, 2, 0);
            r.tasks == db.tasks + [Runner.JoinTask(r, "r", JoinNode, 0, [], 0)]
  {
    hide Runner.RecordArrival, Runner.JoinTask, Indexes;
    var b := BothBranches();
    assert Jsonable(Plain(JNull)) == JNull;
    assert ChildFrames(0, [], BothHops[0], 0, 2, true) == b.outer + [b.frames[0]];
    assert ChildFrames(0, [], BothHops[1], 1, 2, true) == b.outer + [b.frames[1]];
    assert [0, 1][..1] == [0] && [0][..0] == [];
    var one := Runner.RouteOne(db, 0, Gathering, BothHops, true, 0, 0);
    assert LandAll(db, b, JoinNode, [0], 0) == one;
    assert LandAll(db, b, JoinNode, [0, 1], 0) == Runner.RouteOne(one, 0, Gathering, BothHops, true, 1, 0);
    assert Runner.Route(db, 0, Gathering, BothHops, true, 1, 0) == one;
    NoneIn(db, "r", "j", 0);
    LandingsDispatch(db, b, JoinNode, [0, 1], 0);
  }

  lemma NoneIn(db: Tables, run: string, join: string, fanout: nat)
    requires db.arrivals == map[]
    ensures Indexes(db.arrivals, run, join, fanout) == {}
  {
  }

  const Registry := map["w" := Gathering]
  const TheRun := Run("w", Running, None, None)

  // The start row is done and the join dispatched, its row at this status.
  predicate Fired1(s: State, status: TaskStatus) {
    && |s.db.tasks| == 2 && s.db.tasks[1].run == "r" && s.db.tasks[1].node == "j" && s.db.tasks[1].attempt == 1
    && s.db.tasks[1].status == status && s.db.tasks[1].lineage.reason == JoinReason
    && s.db.runs == map["r" := TheRun]
  }

  lemma Fires(s: State)
    requires Begun(s)
    ensures var a := Succeed(0, Gathering, Both, 0);
            Enabled(s, a) && SameGraph(s, a, IsJoin) && Fired1(Next(s, a), Ready)
  {
    hide Runner.Route, Runner.Reading, Jsonable, IsFanOut, Runner.RunOutput, HasIncomplete, ArrivalsPayload,
        ArrivalSenders;
    GatheringIs(s.db);
    var done := Finish(s.db, 0, Done, Some(Jsonable(Both)), false);
    BothLand(done);
    var routed := Runner.Route(done, 0, Gathering, BothHops, true, 2, 0);
    var written := Runner.Written(s.db, 0, Gathering, Both, 0);
    assert written.tasks == routed.tasks && written.runs == s.db.runs;
    assert Pending(written.tasks[1].status) && written.tasks[1].run == "r";
  }

  // Its row fails: once more by itself, or for good.
  lemma FailsOnce(s: State)
    requires Fired1(s, InProgress) && 1 in s.live
    ensures var a := Fail(1, true, 2, 0);
            && Enabled(s, a) && SameGraph(s, a, IsJoin)
            && Retried(Next(s, a), RetryReason)
  {
  }

  lemma FailsForGood(s: State)
    requires Fired1(s, InProgress) && 1 in s.live
    ensures var a := Fail(1, true, 1, 0);
            && Enabled(s, a) && SameGraph(s, a, IsJoin) && 1 !in Next(s, a).live
            && |Next(s, a).db.tasks| == 2
                && Next(s, a).db.tasks[1] == s.db.tasks[1].(status := DeadLetter, result := None, terminal := false)
            && Next(s, a).db.runs == map["r" := Run("w", RunFailed, None, Some(0))]
  {
  }

  lemma IsRetried(s: State)
    requires |s.db.tasks| == 2 && s.db.tasks[1].run == "r" && s.db.tasks[1].node == "j"
        && s.db.tasks[1].status == DeadLetter
    requires s.db.runs == map["r" := Run("w", RunFailed, None, Some(0))]
    ensures var a := Retry(Registry, 1);
            && Enabled(s, a) && SameGraph(s, a, IsJoin) && Retried(Next(s, a), ManualRetryReason)
  {
    GatheringIs(Tables(map[], [Runner.NewTask("r", StartNode, JNull, 1, 0, [], Lineage(StartReason, None, []))],
        map[], []));
  }

  // The newest row of the join is a retry of a row that is not done.
  predicate Retried(s: State, reason: Reason) {
    && |s.db.tasks| == 3 && s.db.tasks[2].run == "r" && s.db.tasks[2].node == "j"
    && s.db.tasks[2].lineage == Lineage(reason, Some(1), []) && s.db.tasks[1].status != Done
    && s.db.runs == map["r" := TheRun]
  }

  lemma RetriedRefuses(trace: seq<Step>, reason: Reason)
    requires FixedRun(Empty, trace, IsJoin) && IsRun(Empty, trace) && Retried(End(Empty, trace), reason)
    requires reason in {RetryReason, ManualRetryReason}
    ensures Ops.Rerun(End(Empty, trace).db, Registry, "r", "j", 0) == Err(Ops.Conflict)
  {
    hide FixedRun, Ops.RerunRow, Indexes;
    var db := End(Empty, trace).db;
    RerunAccepted(trace, IsJoin, "r", JoinNode, 0);
    assert Ops.LastForNode(db.tasks, "r", "j") == Some(2);
    assert Ops.Lookup(Registry, "w", "j") == Ok(JoinNode);
  }

  lemma {:induction false} FixedNext(s: State, trace: seq<Step>, a: Step, joins: Shape)
    requires FixedRun(s, trace, joins) && IsRun(s, trace) && Enabled(End(s, trace), a)
    requires SameGraph(End(s, trace), a, joins) && !OverwritesDone(End(s, trace), a)
    ensures FixedRun(s, trace + [a], joins) && IsRun(s, trace + [a]) && End(s, trace + [a]) == Next(End(s, trace), a)
    decreases |trace|
  {
    hide Enabled, Next, SameGraph, OverwritesDone;
    if trace == [] {
      assert [] + [a] == [a] && [a][1..] == [];
    } else {
      assert (trace + [a])[1..] == trace[1..] + [a];
      FixedNext(Next(s, trace[0]), trace[1..], a, joins);
    }
  }

  lemma Claims1(s: State)
    requires Fired1(s, Ready)
    ensures Enabled(s, Claim(1)) && Fired1(Next(s, Claim(1)), InProgress) && 1 in Next(s, Claim(1)).live
    ensures SameGraph(s, Claim(1), IsJoin)
  {
  }

  const ToTheJoin: seq<Step> := [Submitting, Claim(0), Succeed(0, Gathering, Both, 0), Claim(1)]

  lemma ReachesJoin() returns (s: State)
    ensures FixedRun(Empty, ToTheJoin, IsJoin) && IsRun(Empty, ToTheJoin) && s == End(Empty, ToTheJoin)
    ensures Fired1(s, InProgress) && 1 in s.live
  {
    hide Enabled, Next, Fired1, Begun, SameGraph, FixedRun, IsRun, End;
    s := Begins();
    var trace := [Submitting, Claim(0)];
    var a := Succeed(0, Gathering, Both, 0);
    Fires(s);
    FixedNext(Empty, trace, a, IsJoin);
    s := Next(s, a);
    Claims1(s);
    FixedNext(Empty, trace + [a], Claim(1), IsJoin);
    s := Next(s, Claim(1));
    assert trace + [a] + [Claim(1)] == ToTheJoin;
  }

  // A join fires, its attempt fails and is retried by the engine; it cannot be rerun then.
  lemma RerunAfterRetryRefused()
    ensures var trace := ToTheJoin + [Fail(1, true, 2, 0)];
            IsRun(Empty, trace) && Ops.Rerun(End(Empty, trace).db, Registry, "r", "j", 0) == Err(Ops.Conflict)
  {
    hide Enabled, Next, Fired1, SameGraph, FixedRun, IsRun, End, Retried;
    var s := ReachesJoin();
    FailsOnce(s);
    FixedNext(Empty, ToTheJoin, Fail(1, true, 2, 0), IsJoin);
    RetriedRefuses(ToTheJoin + [Fail(1, true, 2, 0)], RetryReason);
  }

  // Nor when it was dead-lettered and an operator retried it.
  lemma RerunAfterManualRetryRefused()
    ensures var trace := ToTheJoin + [Fail(1, true, 1, 0)] + [Retry(Registry, 1)];
            IsRun(Empty, trace) && Ops.Rerun(End(Empty, trace).db, Registry, "r", "j", 0) == Err(Ops.Conflict)
  {
    hide Enabled, Next, SameGraph, FixedRun, IsRun, End, Retried;
    var s := ReachesJoin();
    FailsForGood(s);
    FixedNext(Empty, ToTheJoin, Fail(1, true, 1, 0), IsJoin);
    var dead := Next(s, Fail(1, true, 1, 0));
    IsRetried(dead);
    FixedNext(Empty, ToTheJoin + [Fail(1, true, 1, 0)], Retry(Registry, 1), IsJoin);
    RetriedRefuses(ToTheJoin + [Fail(1, true, 1, 0)] + [Retry(Registry, 1)], ManualRetryReason);
  }
}
