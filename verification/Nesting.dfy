/** Branch stacks nest: frame k of a row's stack names a done fan-out of the same run
    whose own stack is the first k frames. Kept by every step that does not overwrite a
    done row. */
module Nesting {
  import opened Base
  import opened Json
  import opened Graphs
  import opened Rows
  import opened Routing
  import opened Store
  import opened Machine
  import Runner
  import Ops

  // Frame k of `branch`, the stack of a row of `run` with an id of `bound` or above.
  predicate FrameOk(tasks: seq<Task>, returned: map<nat, Return>, bound: nat, run: string, branch: seq<Frame>, k: nat)
    requires k < |branch|
  {
    var f := branch[k];
    && f.fanout < bound && f.fanout < |tasks|
    && tasks[f.fanout].status == Done
    && tasks[f.fanout].run == run
    && tasks[f.fanout].branch == branch[..k]
    && f.fanout in returned && returned[f.fanout].fanning
    && f.index < f.count == |returned[f.fanout].hops|
    && f.key == returned[f.fanout].hops[f.index].payload
  }

  predicate StackOk(tasks: seq<Task>, returned: map<nat, Return>, bound: nat, run: string, branch: seq<Frame>) {
    forall k | 0 <= k < |branch| :: FrameOk(tasks, returned, bound, run, branch, k)
  }

  predicate Nested(tasks: seq<Task>, returned: map<nat, Return>) {
    forall id | 0 <= id < |tasks| :: StackOk(tasks, returned, id, tasks[id].run, tasks[id].branch)
  }

  // An arrival is that of a branch its fan-out made, under the key that branch was given.
  predicate PlaceOk(tasks: seq<Task>, returned: map<nat, Return>, p: Place, a: Arrival) {
    && p.fanout < |tasks| && tasks[p.fanout].status == Done && tasks[p.fanout].run == p.run
    && p.fanout in returned && returned[p.fanout].fanning
    && p.index < |returned[p.fanout].hops|
    && a.key == returned[p.fanout].hops[p.index].payload
  }

  predicate PlacesOk(arrivals: map<Place, Arrival>, tasks: seq<Task>, returned: map<nat, Return>) {
    forall p | p in arrivals :: PlaceOk(tasks, returned, p, arrivals[p])
  }

  // Exactly the done rows have a recorded return.
  predicate ReturnsOk(tasks: seq<Task>, returned: map<nat, Return>) {
    && (forall id | id in returned ::
          id < |tasks| && tasks[id].status == Done && |returned[id].joins| == |returned[id].hops|
          && (returned[id].fanning ==> |returned[id].hops| > 0)
          && (!returned[id].fanning ==> |returned[id].hops| <= 1))
    && (forall id | 0 <= id < |tasks| && tasks[id].status == Done :: id in returned)
  }

  predicate LiveOk(tasks: seq<Task>, live: set<nat>) {
    forall id | id in live :: id < |tasks| && Interrupted(tasks[id].status)
  }

  predicate RunsOk(db: Tables) {
    forall id | 0 <= id < |db.tasks| :: db.tasks[id].run in db.runs
  }

  predicate Inv(s: State) {
    && Nested(s.db.tasks, s.returned)
    && PlacesOk(s.db.arrivals, s.db.tasks, s.returned)
    && ReturnsOk(s.db.tasks, s.returned)
    && LiveOk(s.db.tasks, s.live)
    && RunsOk(s.db)
  }

  // Rows keep their run and branch, done rows stay done, and returns are not rewritten.
  predicate Grows(tasks: seq<Task>, tasks': seq<Task>) {
    && |tasks| <= |tasks'|
    && forall id | 0 <= id < |tasks| ::
         && tasks'[id].run == tasks[id].run && tasks'[id].branch == tasks[id].branch
         && (tasks[id].status == Done ==> tasks'[id].status == Done)
  }

  predicate Extends(returned: map<nat, Return>, returned': map<nat, Return>) {
    forall id | id in returned :: id in returned' && returned'[id] == returned[id]
  }

  lemma StackKept(
    tasks: seq<Task>, returned: map<nat, Return>, tasks': seq<Task>, returned': map<nat, Return>,
    bound: nat, bound': nat, run: string, branch: seq<Frame>)
    requires Grows(tasks, tasks') && Extends(returned, returned') && bound <= bound'
    requires StackOk(tasks, returned, bound, run, branch)
    ensures StackOk(tasks', returned', bound', run, branch)
  {
    forall k | 0 <= k < |branch| ensures FrameOk(tasks', returned', bound', run, branch, k) {
      assert FrameOk(tasks, returned, bound, run, branch, k);
    }
  }

  // What is left to show of a step: the rows it adds.
  lemma NestedKept(tasks: seq<Task>, returned: map<nat, Return>, tasks': seq<Task>, returned': map<nat, Return>)
    requires Nested(tasks, returned) && Grows(tasks, tasks') && Extends(returned, returned')
    requires forall id | |tasks| <= id < |tasks'| :: StackOk(tasks', returned', id, tasks'[id].run, tasks'[id].branch)
    ensures Nested(tasks', returned')
  {
    forall id | 0 <= id < |tasks'| ensures StackOk(tasks', returned', id, tasks'[id].run, tasks'[id].branch) {
      if id < |tasks| {
        StackKept(tasks, returned, tasks', returned', id, id, tasks[id].run, tasks[id].branch);
      }
    }
  }

  lemma PlacesKept(
    arrivals: map<Place, Arrival>, tasks: seq<Task>, returned: map<nat, Return>, tasks': seq<Task>,
        returned': map<nat, Return>)
    requires PlacesOk(arrivals, tasks, returned) && Grows(tasks, tasks') && Extends(returned, returned')
    ensures PlacesOk(arrivals, tasks', returned')
  {
    forall p | p in arrivals ensures PlaceOk(tasks', returned', p, arrivals[p]) {
      assert PlaceOk(tasks, returned, p, arrivals[p]);
    }
  }

  lemma StackPrefix(tasks: seq<Task>, returned: map<nat, Return>, bound: nat, run: string, branch: seq<Frame>, n: nat)
    requires StackOk(tasks, returned, bound, run, branch) && n <= |branch|
    ensures StackOk(tasks, returned, bound, run, branch[..n])
  {
    forall k | 0 <= k < n ensures FrameOk(tasks, returned, bound, run, branch[..n], k) {
      assert FrameOk(tasks, returned, bound, run, branch, k);
      assert branch[..n][..k] == branch[..k];
    }
  }

  // ------------------------------------------------------------------------
  // The transitions of a return
  // ------------------------------------------------------------------------

  // The stack of child i of a recorded return nests.
  lemma ChildStackOk(tasks: seq<Task>, returned: map<nat, Return>, id: nat, i: nat, bound: nat)
    requires Nested(tasks, returned) && id < |tasks| && id < bound
    requires id in returned && tasks[id].status == Done && i < |returned[id].hops|
    ensures var r := returned[id];
            StackOk(tasks, returned, bound, tasks[id].run,
                    ChildFrames(id, tasks[id].branch, r.hops[i], i, |r.hops|, r.fanning))
  {
    var r := returned[id];
    var branch := tasks[id].branch;
    var frames := ChildFrames(id, branch, r.hops[i], i, |r.hops|, r.fanning);
    StackKept(tasks, returned, tasks, returned, id, bound, tasks[id].run, branch);
    if r.fanning {
      JsonableOfPlain(r.hops[i].payload);
      forall k | 0 <= k < |frames| ensures FrameOk(tasks, returned, bound, tasks[id].run, frames, k) {
        if k < |branch| {
          assert FrameOk(tasks, returned, bound, tasks[id].run, branch, k);
          assert frames[..k] == branch[..k];
        } else {
          assert frames[..k] == branch;
        }
      }
    }
  }

  lemma AppendKeeps(db: Tables, returned: map<nat, Return>, db': Tables, row: Task)
    requires Nested(db.tasks, returned) && PlacesOk(db.arrivals, db.tasks, returned)
    requires db'.tasks == db.tasks + [row] && db'.arrivals == db.arrivals
    requires StackOk(db.tasks, returned, |db.tasks|, row.run, row.branch)
    ensures Nested(db'.tasks, returned) && PlacesOk(db'.arrivals, db'.tasks, returned)
  {
    StackKept(db.tasks, returned, db'.tasks, returned, |db.tasks|, |db.tasks|, row.run, row.branch);
    NestedKept(db.tasks, returned, db'.tasks, returned);
    PlacesKept(db.arrivals, db.tasks, returned, db'.tasks, returned);
  }

  lemma WrittenArrivalOk(db: Tables, returned: map<nat, Return>, id: nat, join: string, value: Json, frames: seq<Frame>)
    requires id < |db.tasks| && frames != []
    requires PlacesOk(db.arrivals, db.tasks, returned)
    requires StackOk(db.tasks, returned, |db.tasks|, db.tasks[id].run, frames)
    ensures var frame := frames[|frames| - 1];
            var p := Place(db.tasks[id].run, join, frame.fanout, frame.index);
            PlacesOk(Runner.WriteArrival(db, id, p, frame, value).arrivals, db.tasks, returned)
  {
    var frame := frames[|frames| - 1];
    assert FrameOk(db.tasks, returned, |db.tasks|, db.tasks[id].run, frames, |frames| - 1);
    var p := Place(db.tasks[id].run, join, frame.fanout, frame.index);
    var arrived := Runner.WriteArrival(db, id, p, frame, value);
    forall q | q in arrived.arrivals ensures PlaceOk(db.tasks, returned, q, arrived.arrivals[q]) {
      assert q == p || (q in db.arrivals && arrived.arrivals[q] == db.arrivals[q]);
    }
  }

  lemma ArrivalKeeps(
    db: Tables, returned: map<nat, Return>, id: nat, target: Node, hop: Hop, frames: seq<Frame>, now: nat)
    requires id < |db.tasks| && frames != []
    requires Nested(db.tasks, returned) && PlacesOk(db.arrivals, db.tasks, returned)
    requires StackOk(db.tasks, returned, |db.tasks|, db.tasks[id].run, frames)
    ensures var db' := Runner.RecordArrival(db, id, target, hop, frames, now);
            Nested(db'.tasks, returned) && PlacesOk(db'.arrivals, db'.tasks, returned)
  {
    hide FrameOk, StackOk, PlaceOk, Indexes, Fired, ArrivalsPayload, ArrivalSenders;
    var run := db.tasks[id].run;
    var last := |frames| - 1;
    var frame := frames[last];
    var arrived := Runner.WriteArrival(db, id, Place(run, target.name, frame.fanout, frame.index), frame, hop.payload);
    WrittenArrivalOk(db, returned, id, target.name, hop.payload, frames);
    StackPrefix(db.tasks, returned, |db.tasks|, run, frames, last);
    var row := Runner.JoinTask(arrived, run, target, frame.fanout, frames[..last], now);
    AppendKeeps(arrived, returned, Runner.EnqueueJoin(arrived, run, target, frame.fanout, frames[..last], now), row);
  }

  predicate Recorded(returned: map<nat, Return>, id: nat, g: Graph, hops: seq<Hop>, fanning: bool) {
    && id in returned
    && (forall i | 0 <= i < |hops| :: hops[i].target in g.nodes)
    && returned[id] == ReturnOf(g, hops, fanning)
  }

  lemma {:induction false} RouteKeeps(
    db: Tables, returned: map<nat, Return>, id: nat, g: Graph, hops: seq<Hop>, fanning: bool, upto: nat, now: nat)
    requires id < |db.tasks| && upto <= |hops| && Runner.Routable(g, db.tasks[id].branch, hops, fanning)
    requires db.tasks[id].status == Done && Recorded(returned, id, g, hops, fanning)
    requires Nested(db.tasks, returned) && PlacesOk(db.arrivals, db.tasks, returned)
    ensures var db' := Runner.Route(db, id, g, hops, fanning, upto, now);
            Nested(db'.tasks, returned) && PlacesOk(db'.arrivals, db'.tasks, returned)
  {
    hide Nested, PlacesOk, Runner.RouteOne;
    if upto > 0 {
      RouteKeeps(db, returned, id, g, hops, fanning, upto - 1, now);
      var before := Runner.Route(db, id, g, hops, fanning, upto - 1, now);
      assert before.tasks[id] == db.tasks[id];
      RouteOneKeeps(before, returned, id, g, hops, fanning, upto - 1, now);
    }
  }

  lemma RouteOneKeeps(
    db: Tables, returned: map<nat, Return>, id: nat, g: Graph, hops: seq<Hop>, fanning: bool, i: nat, now: nat)
    requires id < |db.tasks| && i < |hops| && Runner.Routable(g, db.tasks[id].branch, hops, fanning)
    requires db.tasks[id].status == Done && Recorded(returned, id, g, hops, fanning)
    requires Nested(db.tasks, returned) && PlacesOk(db.arrivals, db.tasks, returned)
    ensures var db' := Runner.RouteOne(db, id, g, hops, fanning, i, now);
            Nested(db'.tasks, returned) && PlacesOk(db'.arrivals, db'.tasks, returned)
  {
    ChildStackOk(db.tasks, returned, id, i, |db.tasks|);
    var frames := ChildFrames(id, db.tasks[id].branch, hops[i], i, |hops|, fanning);
    var target := g.nodes[hops[i].target];
    if target.join {
      ArrivalKeeps(db, returned, id, target, hops[i], frames, now);
    } else {
      var db' := Runner.EnqueueTransition(db, id, target, hops[i], frames, now);
      AppendKeeps(db, returned, db', db'.tasks[|db.tasks|]);
    }
  }

  // ------------------------------------------------------------------------
  // Every step
  // ------------------------------------------------------------------------

  // Rows keep everything but their status, and no row becomes done.
  predicate Restatused(tasks: seq<Task>, tasks': seq<Task>) {
    && |tasks| == |tasks'|
    && forall id | 0 <= id < |tasks| ::
         && tasks'[id] == tasks[id].(status := tasks'[id].status)
         && (tasks'[id].status == Done <==> tasks[id].status == Done)
  }

  lemma RestatusKeeps(s: State, db': Tables, live': set<nat>)
    requires Inv(s) && Restatused(s.db.tasks, db'.tasks)
    requires db'.arrivals == s.db.arrivals && s.db.runs.Keys <= db'.runs.Keys
    requires LiveOk(db'.tasks, live')
    ensures Inv(State(db', live', s.returned))
  {
    NestedKept(s.db.tasks, s.returned, db'.tasks, s.returned);
    PlacesKept(s.db.arrivals, s.db.tasks, s.returned, db'.tasks, s.returned);
  }

  // A row added by a verb runs under the stack of a row that exists, or under none.
  lemma AddedRowKeeps(s: State, db: Tables, db': Tables, live': set<nat>, row: Task, like: Option<nat>)
    requires Inv(State(db, live', s.returned))
    requires db'.tasks == db.tasks + [row] && db'.arrivals == db.arrivals && db.runs.Keys <= db'.runs.Keys
    requires row.status == Ready && row.run in db'.runs
    requires like.Some? ==> like.value < |db.tasks|
    requires like.Some? ==> db.tasks[like.value].run == row.run && db.tasks[like.value].branch == row.branch
    requires like.None? ==> row.branch == []
    ensures Inv(State(db', live', s.returned))
  {
    if like.Some? {
      StackKept(db.tasks, s.returned, db.tasks, s.returned, like.value, |db.tasks|, row.run, row.branch);
    }
    AppendKeeps(db, s.returned, db', row);
    assert forall id | 0 <= id < |db.tasks| :: db'.tasks[id] == db.tasks[id];
  }

  // Settling a run changes its row and the outbox, nothing else.
  lemma SettleTouches(db: Tables, run: string, terminal: bool, now: nat)
    ensures var db' := Runner.SettleRun(db, run, terminal, now);
            db'.tasks == db.tasks && db'.arrivals == db.arrivals && db'.runs.Keys == db.runs.Keys
  {
    hide HasPending, HasIncomplete, Runner.RunOutput;
  }

  // What a success leaves of the tables: the row done, its transitions written.
  lemma SuccessWrites(db: Tables, id: nat, g: Graph, value: Value, now: nat)
    requires id < |db.tasks| && EdgesOk(g.nodes) && Runner.Reading(db, id, g, value).Ok?
    ensures var hops := Runner.Reading(db, id, g, value).value;
            var done := Finish(db, id, Done, Some(Jsonable(value)), hops == []);
            var routed := Runner.Route(done, id, g, hops, IsFanOut(value), |hops|, now);
            var db' := Runner.Success(db, id, g, value, now).value;
            && db'.tasks == routed.tasks && db'.arrivals == routed.arrivals && db'.runs.Keys == db.runs.Keys
            && Runner.Added(db.tasks[id].run, id, done.tasks, db'.tasks)
  {
    hide Runner.SettleRun, Runner.Route, Runner.Reading, Runner.HopTargets, Jsonable, IsFanOut;
    var hops := Runner.Reading(db, id, g, value).value;
    var done := Finish(db, id, Done, Some(Jsonable(value)), hops == []);
    Runner.RouteAdds(done, id, g, hops, IsFanOut(value), |hops|, now);
    SettleTouches(Runner.Written(db, id, g, value, now), db.tasks[id].run, hops == [], now);
  }

  lemma SuccessNests(s: State, a: Step)
    requires Inv(s) && a.Succeed? && Enabled(s, a)
    ensures Nested(Next(s, a).db.tasks, Next(s, a).returned)
    ensures PlacesOk(Next(s, a).db.arrivals, Next(s, a).db.tasks, Next(s, a).returned)
  {
    hide Runner.Written, Runner.SettleRun, Runner.Route, Runner.Reading, Jsonable, IsFanOut, FrameOk, StackOk, PlaceOk;
    var hops := Runner.Reading(s.db, a.id, a.g, a.value).value;
    var returned := Next(s, a).returned;
    var done := Finish(s.db, a.id, Done, Some(Jsonable(a.value)), hops == []);
    assert Grows(s.db.tasks, done.tasks) && Extends(s.returned, returned);
    NestedKept(s.db.tasks, s.returned, done.tasks, returned);
    PlacesKept(s.db.arrivals, s.db.tasks, s.returned, done.tasks, returned);
    RouteKeeps(done, returned, a.id, a.g, hops, IsFanOut(a.value), |hops|, a.now);
    SuccessWrites(s.db, a.id, a.g, a.value, a.now);
  }

  lemma SuccessKeeps(s: State, a: Step)
    requires Inv(s) && a.Succeed? && Enabled(s, a)
    ensures Inv(Next(s, a))
  {
    hide Runner.Written, Runner.SettleRun, Runner.Route, Runner.Reading, Jsonable, IsFanOut, Nested, PlacesOk;
    SuccessNests(s, a);
    SuccessWrites(s.db, a.id, a.g, a.value, a.now);
    var tasks := Next(s, a).db.tasks;
    forall id | 0 <= id < |tasks| && id != a.id
      ensures if id < |s.db.tasks| then tasks[id] == s.db.tasks[id]
          else Runner.Fresh(s.db.tasks[a.id].run, a.id, tasks[id])
    {
    }
  }

  lemma FailedRowKeeps(s: State, id: nat)
    requires Inv(s) && Held(s, id)
    ensures Inv(State(Finish(s.db, id, Failed, None, false), s.live - {id}, s.returned))
  {
    hide FrameOk, StackOk, PlaceOk;
    var failed := Finish(s.db, id, Failed, None, false);
    NestedKept(s.db.tasks, s.returned, failed.tasks, s.returned);
    PlacesKept(s.db.arrivals, s.db.tasks, s.returned, failed.tasks, s.returned);
  }

  lemma FailureKeeps(s: State, a: Step)
    requires Inv(s) && a.Fail? && Enabled(s, a)
    ensures Inv(Next(s, a))
  {
    hide Nested, PlacesOk, ReturnsOk;
    var t := s.db.tasks[a.id];
    var live := s.live - {a.id};
    var failed := Finish(s.db, a.id, Failed, None, false);
    FailedRowKeeps(s, a.id);
    if a.retryable && t.attempt < a.budget {
      AddedRowKeeps(s, failed, Next(s, a).db, live, Runner.RetryOf(t, a.id, RetryReason), Some(a.id));
    } else {
      RestatusKeeps(State(failed, live, s.returned), Next(s, a).db, live);
    }
  }

  lemma SubmitKeeps(s: State, a: Step)
    requires Inv(s) && Enabled(s, a) && a.Submit?
    ensures Inv(Next(s, a))
  {
    hide FrameOk, StackOk, PlaceOk;
    var db' := Next(s, a).db;
    var db := s.db.(runs := db'.runs);
    NestedKept(s.db.tasks, s.returned, db.tasks, s.returned);
    PlacesKept(s.db.arrivals, s.db.tasks, s.returned, db.tasks, s.returned);
    AddedRowKeeps(s, db, db', s.live, db'.tasks[|db.tasks|], None);
  }

  lemma RerunKeeps(s: State, a: Step)
    requires Inv(s) && Enabled(s, a) && a.Rerun?
    ensures Inv(Next(s, a))
  {
    hide FrameOk, StackOk, PlaceOk, Indexes, ArrivalsPayload, ArrivalSenders;
    var target := Ops.Lookup(a.graphs, s.db.runs[a.run].workflow, a.node).value;
    var last := Ops.LastForNode(s.db.tasks, a.run, target.name);
    AddedRowKeeps(s, s.db, Next(s, a).db, s.live, Ops.RerunRow(s.db, a.run, target, a.now).value, last);
  }

  lemma RetryKeeps(s: State, a: Step)
    requires Inv(s) && Enabled(s, a) && a.Retry?
    ensures Inv(Next(s, a))
  {
    hide FrameOk, StackOk, PlaceOk;
    AddedRowKeeps(s, s.db, Next(s, a).db, s.live, Runner.RetryOf(s.db.tasks[a.id], a.id, ManualRetryReason),
        Some(a.id));
  }

  // A move adds one row, under the stack of the row it moves.
  lemma MoveAdds(db: Tables, graphs: map<string, Graph>, id: nat, node: string, now: nat)
    requires Ops.Move(db, graphs, id, node, now).Ok?
    ensures id < |db.tasks| && db.tasks[id].run in db.runs
    ensures var db' := Ops.Move(db, graphs, id, node, now).value;
            var stopped := if Pending(db.tasks[id].status) then Ops.CancelTask(db, id) else db;
            && db'.arrivals == db.arrivals && db'.runs.Keys == db.runs.Keys
            && |db'.tasks| == |db.tasks| + 1 && db'.tasks == stopped.tasks + [db'.tasks[|db.tasks|]]
            && var row := db'.tasks[|db.tasks|];
               && row.run == db.tasks[id].run && row.branch == db.tasks[id].branch && row.status == Ready
               && row.lineage == Lineage(MoveReason, Some(id), [])
  {
    hide Ops.Lookup, Runner.Priority;
  }

  lemma MoveKeeps(s: State, a: Step)
    requires Inv(s) && Enabled(s, a) && a.Move?
    ensures Inv(Next(s, a))
  {
    hide Nested, PlacesOk, ReturnsOk, Ops.Move;
    MoveAdds(s.db, a.graphs, a.id, a.node, a.now);
    var t := s.db.tasks[a.id];
    var live := s.live - {a.id};
    var stopped := if Pending(t.status) then Ops.CancelTask(s.db, a.id) else s.db;
    RestatusKeeps(s, stopped, live);
    AddedRowKeeps(s, stopped, Next(s, a).db, live, Next(s, a).db.tasks[|s.db.tasks|], Some(a.id));
  }

  lemma CancelKeeps(s: State, a: Step)
    requires Inv(s) && Enabled(s, a) && a.Cancel?
    ensures Inv(Next(s, a))
  {
    hide Nested, PlacesOk, ReturnsOk, Next, Apply, Enabled;
    CancelIs(s, a);
    RestatusKeeps(s, Next(s, a).db, Next(s, a).live);
  }

  lemma RecoverKeeps(s: State, a: Step)
    requires Inv(s) && Enabled(s, a) && a.Recover?
    ensures Inv(Next(s, a))
  {
    hide Nested, PlacesOk, ReturnsOk, Next, Apply, Enabled;
    RecoverIs(s, a);
    RestatusKeeps(s, Next(s, a).db, s.live);
  }

  lemma SetStatusKeeps(s: State, a: Step)
    requires Inv(s) && Enabled(s, a) && a.SetStatus? && !OverwritesDone(s, a)
    ensures Inv(Next(s, a))
  {
    hide Nested, PlacesOk, ReturnsOk;
    RestatusKeeps(s, Next(s, a).db, s.live - {a.id});
  }

  lemma ClaimKeeps(s: State, a: Step)
    requires Inv(s) && Enabled(s, a) && (a.Claim? || a.Park? || a.Unpark?)
    ensures Inv(Next(s, a))
  {
    hide Nested, PlacesOk, ReturnsOk, Next, Apply, Enabled;
    if a.Claim? {
      ClaimIs(s, a);
    } else {
      ParkIs(s, a);
    }
    RestatusKeeps(s, Next(s, a).db, Next(s, a).live);
  }

  lemma RunStepKeeps(s: State, a: Step)
    requires Inv(s) && Enabled(s, a) && (a.Crash? || a.Drop? || a.Pause? || a.Resume?)
    ensures Inv(Next(s, a))
  {
    hide Nested, PlacesOk, ReturnsOk;
    RestatusKeeps(s, Next(s, a).db, LiveAfter(s, a));
  }

  lemma StepKeeps(s: State, a: Step)
    requires Inv(s) && Enabled(s, a) && !OverwritesDone(s, a)
    ensures Inv(Next(s, a))
  {
    hide Inv, Enabled, Next;
    match a
    case Succeed(_, _, _, _) => SuccessKeeps(s, a);
    case Fail(_, _, _, _) => FailureKeeps(s, a);
    case Submit(_, _, _, _, _) => SubmitKeeps(s, a);
    case Rerun(_, _, _, _) => RerunKeeps(s, a);
    case Retry(_, _) => RetryKeeps(s, a);
    case Move(_, _, _, _) => MoveKeeps(s, a);
    case Cancel(_, _) => CancelKeeps(s, a);
    case Recover(_) => RecoverKeeps(s, a);
    case SetStatus(_, _) => SetStatusKeeps(s, a);
    case Claim(_) => ClaimKeeps(s, a);
    case Park(_) => ClaimKeeps(s, a);
    case Unpark(_) => ClaimKeeps(s, a);
    case _ => RunStepKeeps(s, a);
  }

  lemma {:induction false} RunKeeps(s: State, trace: seq<Step>)
    requires Inv(s) && KeepingRun(s, trace)
    ensures IsRun(s, trace) && Inv(End(s, trace))
    decreases |trace|
  {
    if trace != [] {
      StepKeeps(s, trace[0]);
      RunKeeps(Next(s, trace[0]), trace[1..]);
    }
  }

  lemma FramesOk(s: State, id: nat, k: nat)
    requires Inv(s) && id < |s.db.tasks| && k < |s.db.tasks[id].branch|
    ensures FrameOk(s.db.tasks, s.returned, id, s.db.tasks[id].run, s.db.tasks[id].branch, k)
  {
    assert StackOk(s.db.tasks, s.returned, id, s.db.tasks[id].run, s.db.tasks[id].branch);
  }

  // In every run that overwrites no done row, each frame of each row's stack names a
  // done fan-out of the run whose stack is the frames below it, with an index below the
  // count.
  lemma StacksNest(trace: seq<Step>, id: nat, k: nat)
    requires KeepingRun(Empty, trace)
    ensures IsRun(Empty, trace)
    ensures var tasks := End(Empty, trace).db.tasks;
            id < |tasks| && k < |tasks[id].branch| ==>
              var f := tasks[id].branch[k];
              && f.fanout < id && tasks[f.fanout].status == Done && tasks[f.fanout].run == tasks[id].run
              && tasks[f.fanout].branch == tasks[id].branch[..k] && f.index < f.count
  {
    RunKeeps(Empty, trace);
    var s := End(Empty, trace);
    if id < |s.db.tasks| && k < |s.db.tasks[id].branch| {
      FramesOk(s, id, k);
    }
  }

  // All frames of one fan-out agree on its width, and all frames of one of its branches
  // are the same frame, key included.
  lemma FramesAgree(trace: seq<Step>, id: nat, k: nat, id': nat, k': nat)
    requires KeepingRun(Empty, trace)
    ensures IsRun(Empty, trace)
    ensures var tasks := End(Empty, trace).db.tasks;
            id < |tasks| && k < |tasks[id].branch| && id' < |tasks| && k' < |tasks[id'].branch| ==>
              var f, f' := tasks[id].branch[k], tasks[id'].branch[k'];
              f.fanout == f'.fanout ==> f.count == f'.count && (f.index == f'.index ==> f == f' && k == k')
  {
    RunKeeps(Empty, trace);
    var s := End(Empty, trace);
    if id < |s.db.tasks| && k < |s.db.tasks[id].branch| && id' < |s.db.tasks| && k' < |s.db.tasks[id'].branch| {
      FramesOk(s, id, k);
      FramesOk(s, id', k');
    }
  }

  // The verb left out of the above: setting the status of a row keeps every stack nested
  // exactly when no stack names the row.
  lemma SettingStatusNests(s: State, a: Step)
    requires Inv(s) && a.SetStatus? && Enabled(s, a)
    ensures Nested(Next(s, a).db.tasks, s.returned) <==>
      forall id | 0 <= id < |s.db.tasks| :: !Names(s.db.tasks[id].branch, a.id)
  {
    hide PlacesOk, LiveOk, RunsOk, ReturnsOk, Ops.SetStatus, StackOk;
    SetStatusSets(s.db, a.id, a.status);
    var tasks, tasks' := s.db.tasks, Next(s, a).db.tasks;
    NestedUnless(tasks, tasks', s.returned, a.id, a.status);
  }

  lemma SetStatusSets(db: Tables, id: nat, status: TaskStatus)
    requires Ops.Settable(status) && Ops.SetStatus(db, id, status).Ok?
    ensures id < |db.tasks|
        && Ops.SetStatus(db, id, status).value.tasks == db.tasks[id := db.tasks[id].(status := status)]
  {
  }

  lemma NestedUnless(tasks: seq<Task>, tasks': seq<Task>, returned: map<nat, Return>, id: nat, status: TaskStatus)
    requires Nested(tasks, returned) && Ops.Settable(status)
    requires id < |tasks| && tasks' == tasks[id := tasks[id].(status := status)]
    ensures Nested(tasks', returned) <==> forall c | 0 <= c < |tasks| :: !Names(tasks[c].branch, id)
  {
    if forall c | 0 <= c < |tasks| :: !Names(tasks[c].branch, id) {
      forall c, k | 0 <= c < |tasks| && 0 <= k < |tasks[c].branch|
        ensures FrameOk(tasks', returned, c, tasks[c].run, tasks[c].branch, k)
      {
        assert !Names(tasks[c].branch, id);
        assert StackOk(tasks, returned, c, tasks[c].run, tasks[c].branch);
        assert FrameOk(tasks, returned, c, tasks[c].run, tasks[c].branch, k);
      }
    } else {
      var c :| 0 <= c < |tasks| && Names(tasks[c].branch, id);
      var k :| 0 <= k < |tasks[c].branch| && tasks[c].branch[k].fanout == id;
      assert !FrameOk(tasks', returned, c, tasks'[c].run, tasks'[c].branch, k);
      assert !StackOk(tasks', returned, c, tasks'[c].run, tasks'[c].branch);
    }
  }
}
