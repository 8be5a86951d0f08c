/** What each verb of the operator, and the sweep, leaves of the tables, read off the rows
    (athanore/engine/ops.py, athanore/engine/recovery.py). */
module Interventions {
  import opened Base
  import opened Json
  import opened Graphs
  import opened Rows
  import opened Store
  import opened Machine
  import opened Successors
  import Runner
  import Ops

  // A run that is over is running again, without its stamp and with the output it had; any
  // other is as it was.
  predicate Reopened(runs: map<string, Run>, runs': map<string, Run>, run: string) {
    && run in runs
    && runs' == if runs[run].status in {Completed, RunFailed, RunCancelled}
                then runs[run := Run(runs[run].workflow, Running, runs[run].output, None)] else runs
  }

  // What re-opening adds to the events.
  function ReopenEvents(runs: map<string, Run>, run: string): seq<Event> {
    if run in runs && runs[run].status in {Completed, RunFailed, RunCancelled}
    then [Event(Some(run), None, RunReopened)] else []
  }

  // Nothing but the status of this run changed, and one event tells it.
  predicate OnlyStatus(db: Tables, db': Tables, run: string, status: RunStatus, name: Name) {
    && run in db.runs && db'.runs == db.runs[run := db.runs[run].(status := status)]
    && db'.tasks == db.tasks && db'.arrivals == db.arrivals
    && db'.events == db.events + [Event(Some(run), None, name)]
  }

  // One row more, announced, and its run re-opened.
  predicate AddsRow(db: Tables, db': Tables, row: Task) {
    && db'.tasks == db.tasks + [row] && db'.arrivals == db.arrivals && Reopened(db.runs, db'.runs, row.run)
    && db'.events == db.events + [Event(Some(row.run), Some(|db.tasks|), TaskEnqueued(row.lineage.reason))]
                     + ReopenEvents(db.runs, row.run)
  }

  // A node the workflow of the run declares.
  predicate Declares(graphs: map<string, Graph>, db: Tables, run: string, node: string) {
    run in db.runs && db.runs[run].workflow in graphs && node in graphs[db.runs[run].workflow].nodes
  }

  lemma ReopenIs(db: Tables, run: string)
    requires run in db.runs
    ensures var db' := Ops.Reopen(db, run);
            && Reopened(db.runs, db'.runs, run) && db'.tasks == db.tasks && db'.arrivals == db.arrivals
            && db'.events == db.events + ReopenEvents(db.runs, run)
  {
  }

  lemma EnqueueIs(db: Tables, row: Task)
    ensures var db' := Ops.EnqueueRow(db, row);
            && db'.tasks == db.tasks + [row] && db'.arrivals == db.arrivals && db'.runs == db.runs
            && db'.events == db.events + [Event(Some(row.run), Some(|db.tasks|), TaskEnqueued(row.lineage.reason))]
  {
  }

  lemma AddThenReopen(db: Tables, row: Task)
    requires row.run in db.runs
    ensures AddsRow(db, Ops.Reopen(Ops.EnqueueRow(db, row), row.run), row)
  {
    hide Ops.Reopen, Ops.EnqueueRow, Reopened, ReopenEvents;
    EnqueueIs(db, row);
    ReopenIs(Ops.EnqueueRow(db, row), row.run);
  }

  // Submitting queues a run with nothing to show yet, and one row at the start with the
  // payload.
  lemma SubmitAdds(s: State, a: Step)
    requires a.Submit? && Registered(a.graphs) && a.run !in s.db.runs
    ensures Enabled(s, a) <==> a.workflow in a.graphs
    ensures Enabled(s, a) ==>
              var start, db' := a.graphs[a.workflow].nodes[a.graphs[a.workflow].start], Next(s, a).db;
              && db'.runs == s.db.runs[a.run := Run(a.workflow, Queued, None, None)] && db'.arrivals == s.db.arrivals
              && db'.tasks == s.db.tasks +
                  [Task(a.run, start.name, 1, Ready, a.payload, None, false, KeyOf(start).0, KeyOf(start).1, a.now, [],
                      Lineage(StartReason, None, []))]
              && db'.events == s.db.events +
                  [Event(Some(a.run), None, RunCreated),
                   Event(Some(a.run), Some(|s.db.tasks|), TaskEnqueued(StartReason))]
  {
    hide Finalized;
  }

  // A retry is another attempt at the same work, in the place in the order that the first
  // had, accepted exactly when the row has stopped and its node is still declared.
  lemma RetryAdds(s: State, a: Step)
    requires a.Retry? && Registered(a.graphs)
    ensures Enabled(s, a) <==>
              && a.id < |s.db.tasks| && s.db.tasks[a.id].status !in {Ready, InProgress, Waiting}
              && Declares(a.graphs, s.db, s.db.tasks[a.id].run, s.db.tasks[a.id].node)
    ensures Enabled(s, a) ==>
              var t := s.db.tasks[a.id];
              AddsRow(s.db, Next(s, a).db,
                Task(t.run, t.node, t.attempt + 1, Ready, t.payload, None, false, t.priority, t.explicit, t.created,
                  t.branch, Lineage(ManualRetryReason, Some(a.id), [])))
  {
    hide Finalized, Ops.Reopen, Ops.EnqueueRow, AddsRow;
    if Enabled(s, a) {
      AddThenReopen(s.db, Runner.RetryOf(s.db.tasks[a.id], a.id, ManualRetryReason));
    }
  }

  // A move is accepted exactly to a node of the run's workflow that is no join.
  lemma MoveAccepted(s: State, a: Step)
    requires a.Move? && Registered(a.graphs)
    ensures Enabled(s, a) <==>
              && a.id < |s.db.tasks| && Declares(a.graphs, s.db, s.db.tasks[a.id].run, a.node)
              && !a.graphs[s.db.runs[s.db.tasks[a.id].run].workflow].nodes[a.node].join
  {
    hide Finalized, Ops.Reopen, Ops.EnqueueRow;
  }

  // It is new work at the other node, with the payload and the branch of the row moved, which
  // is cancelled if it was outstanding and keeps its status if not.
  lemma MoveAdds(s: State, a: Step)
    requires a.Move? && Enabled(s, a)
    ensures a.id < |s.db.tasks| && Declares(a.graphs, s.db, s.db.tasks[a.id].run, a.node)
    ensures var t, db' := s.db.tasks[a.id], Next(s, a).db;
            var target := a.graphs[s.db.runs[t.run].workflow].nodes[a.node];
            var stops := t.status in {Ready, InProgress, Waiting};
            && db'.tasks == (if stops then s.db.tasks[a.id := t.(status := TaskStatus.Cancelled)] else s.db.tasks) +
                [Task(t.run, a.node, 1, Ready, t.payload, None, false, KeyOf(target).0, KeyOf(target).1, a.now,
                    t.branch, Lineage(MoveReason, Some(a.id), []))]
            && db'.arrivals == s.db.arrivals && Reopened(s.db.runs, db'.runs, t.run)
            && db'.events == s.db.events + (if stops then [Event(Some(t.run), Some(a.id), TaskCancelledEvent)] else [])
                + [Event(Some(t.run), Some(|s.db.tasks|), TaskEnqueued(MoveReason)),
                   Event(Some(t.run), Some(a.id), TaskMoved(|s.db.tasks|))] + ReopenEvents(s.db.runs, t.run)
            && Next(s, a).live == s.live - {a.id}
  {
    hide Ops.Reopen, Reopened, ReopenEvents, Enabled, Apply, Next, LiveAfter;
    MoveStep(s, a);
    var t := s.db.tasks[a.id];
    NamedAlike(a.graphs, s.db.runs[t.run].workflow, a.node);
    var target := a.graphs[s.db.runs[t.run].workflow].nodes[a.node];
    var stopped := if Pending(t.status) then Ops.CancelTask(s.db, a.id) else s.db;
    var row := Runner.NewTask(t.run, target, t.payload, 1, a.now, t.branch, Lineage(MoveReason, Some(a.id), []));
    ReopenIs(Emit(Ops.EnqueueRow(stopped, row), Some(t.run), Some(a.id), TaskMoved(|s.db.tasks|)), t.run);
  }

  lemma MoveStep(s: State, a: Step)
    requires a.Move? && Enabled(s, a)
    ensures Registered(a.graphs) && a.id < |s.db.tasks| && Declares(a.graphs, s.db, s.db.tasks[a.id].run, a.node)
    ensures Ops.Move(s.db, a.graphs, a.id, a.node, a.now).Ok?
    ensures Next(s, a) ==
              State(Ops.Move(s.db, a.graphs, a.id, a.node, a.now).value, s.live - {a.id}, s.returned)
  {
    hide Finalized, Ops.Reopen, Ops.EnqueueRow;
  }

  // The newest row at the node, if there is one.
  predicate IsNewest(tasks: seq<Task>, run: string, node: string, last: Option<nat>) {
    match last
    case None => forall c | 0 <= c < |tasks| :: tasks[c].run != run || tasks[c].node != node
    case Some(n) =>
      && n < |tasks| && tasks[n].run == run && tasks[n].node == node
      && forall c | n < c < |tasks| :: tasks[c].run != run || tasks[c].node != node
  }

  // One past the highest attempt at the node, or 1.
  predicate IsNextAttempt(tasks: seq<Task>, run: string, node: string, n: int) {
    && n >= 1 && (forall c | 0 <= c < |tasks| && tasks[c].run == run && tasks[c].node == node :: tasks[c].attempt < n)
    && (n > 1 ==>
        exists c :: 0 <= c < |tasks| && tasks[c].run == run && tasks[c].node == node && tasks[c].attempt == n - 1)
  }

  lemma {:induction false} NextAttemptIs(tasks: seq<Task>, run: string, node: string)
    ensures IsNextAttempt(tasks, run, node, Ops.NextAttempt(tasks, run, node))
  {
    if tasks != [] {
      var front, last := tasks[..|tasks| - 1], tasks[|tasks| - 1];
      NextAttemptIs(front, run, node);
      var before := Ops.NextAttempt(front, run, node);
      if before > 1 {
        var c :| 0 <= c < |front| && front[c].run == run && front[c].node == node && front[c].attempt == before - 1;
        assert tasks[c] == front[c];
      }
      assert tasks[|tasks| - 1] == last;
    }
  }

  // A rerun of a node that is no join does the work of its newest row again, one attempt on,
  // and that of no payload and no branch if it has none.
  lemma RerunAddsRow(s: State, a: Step) returns (last: Option<nat>)
    requires a.Rerun? && Registered(a.graphs) && Declares(a.graphs, s.db, a.run, a.node)
    requires !a.graphs[s.db.runs[a.run].workflow].nodes[a.node].join
    ensures Enabled(s, a) && IsNewest(s.db.tasks, a.run, a.node, last)
    ensures var target, db' := a.graphs[s.db.runs[a.run].workflow].nodes[a.node], Next(s, a).db;
            && |db'.tasks| == |s.db.tasks| + 1
            && var row := db'.tasks[|s.db.tasks|];
               && AddsRow(s.db, db', row) && IsNextAttempt(s.db.tasks, a.run, a.node, row.attempt)
               && row == Task(a.run, a.node, row.attempt, Ready,
                     if last.Some? then s.db.tasks[last.value].payload else JNull, None, false, KeyOf(target).0,
                     KeyOf(target).1, a.now, if last.Some? then s.db.tasks[last.value].branch else [],
                     Lineage(RerunReason, last, []))
  {
    hide Ops.Reopen, Ops.EnqueueRow, AddsRow, Ops.NextAttempt, Ops.LastForNode, Finalized;
    var target := a.graphs[s.db.runs[a.run].workflow].nodes[a.node];
    NamedAlike(a.graphs, s.db.runs[a.run].workflow, a.node);
    last := Ops.LastForNode(s.db.tasks, a.run, a.node);
    NextAttemptIs(s.db.tasks, a.run, a.node);
    var row := Ops.RerunRow(s.db, a.run, target, a.now).value;
    AddThenReopen(s.db, row);
    RowIsAdded(s.db, Next(s, a).db, row);
  }

  lemma RowIsAdded(db: Tables, db': Tables, row: Task)
    requires AddsRow(db, db', row)
    ensures |db'.tasks| == |db.tasks| + 1 && db'.tasks[|db.tasks|] == row
  {
  }

  lemma NamedAlike(graphs: map<string, Graph>, workflow: string, node: string)
    requires Registered(graphs) && workflow in graphs && node in graphs[workflow].nodes
    ensures graphs[workflow].nodes[node].name == node
  {
  }

  // Writing a status changes that row's status and nothing else of the rows; the attempt of
  // the row is cancelled with it, and writing `ready` re-opens the run.
  lemma SetStatusWrites(s: State, a: Step)
    requires a.SetStatus?
    ensures Enabled(s, a) <==>
              && a.status in {Ready, TaskStatus.Cancelled, TaskStatus.DeadLetter} && a.id < |s.db.tasks|
              && (a.status == Ready ==> s.db.tasks[a.id].run in s.db.runs)
    ensures Enabled(s, a) ==>
              var t, db' := s.db.tasks[a.id], Next(s, a).db;
              && db'.tasks == s.db.tasks[a.id := t.(status := a.status)] && db'.arrivals == s.db.arrivals
              && (if a.status == Ready then Reopened(s.db.runs, db'.runs, t.run) else db'.runs == s.db.runs)
              && db'.events == s.db.events + [Event(Some(t.run), Some(a.id), TaskStatusSet(a.status))]
                  + (if a.status == TaskStatus.Cancelled then [Event(Some(t.run), Some(a.id), TaskCancelledEvent)]
                     else if a.status == Ready then ReopenEvents(s.db.runs, t.run) else [])
              && Next(s, a).live == s.live - {a.id}
  {
    hide Ops.Reopen, Reopened, ReopenEvents;
    if Enabled(s, a) && a.status == Ready {
      var t := s.db.tasks[a.id];
      ReopenIs(Emit(SetTask(s.db, a.id, a.status), Some(t.run), Some(a.id), TaskStatusSet(a.status)), t.run);
    }
  }

  // A cancellation stops every outstanding row of the run and its attempts, and no other, and
  // ends the run. It is accepted exactly when the run is not over.
  lemma CancelStops(s: State, a: Step, id: nat)
    requires a.Cancel?
    ensures Enabled(s, a) <==>
              a.run in s.db.runs && s.db.runs[a.run].status !in {Completed, RunFailed, RunCancelled}
    ensures Enabled(s, a) ==>
              var db' := Next(s, a).db;
              && db'.runs == s.db.runs[a.run := s.db.runs[a.run].(status := RunCancelled, finished := Some(a.now))]
              && db'.arrivals == s.db.arrivals && |db'.tasks| == |s.db.tasks|
              && (id < |s.db.tasks| ==>
                    var t := s.db.tasks[id];
                    var stops := t.run == a.run && t.status in {Ready, InProgress, Waiting};
                    && db'.tasks[id] == (if stops then t.(status := TaskStatus.Cancelled) else t)
                    && (id in Next(s, a).live <==> id in s.live && !stops))
              && (id >= |s.db.tasks| ==> (id in Next(s, a).live <==> id in s.live))
  {
    hide Ops.CancelTasks;
  }

  // A row is claimed exactly when it is ready and its run is queued or running. It is in
  // progress then, its run running, and an attempt of it live.
  lemma ClaimTakes(s: State, a: Step)
    requires a.Claim?
    ensures Enabled(s, a) <==>
              && a.id < |s.db.tasks| && s.db.tasks[a.id].status == Ready && s.db.tasks[a.id].run in s.db.runs
              && s.db.runs[s.db.tasks[a.id].run].status in {Queued, Running}
    ensures Enabled(s, a) ==>
              var t := s.db.tasks[a.id];
              && Next(s, a).db == s.db.(tasks := s.db.tasks[a.id := t.(status := InProgress)],
                    runs := s.db.runs[t.run := s.db.runs[t.run].(status := Running)])
              && Next(s, a).live == s.live + {a.id}
  {
  }

  // A workflow that leaves takes exactly its own attempts with it, and a crash takes all; the
  // tables stay as they are.
  lemma DropLoses(s: State, a: Step, id: nat)
    requires a.Drop? || a.Crash?
    ensures Enabled(s, a) && Next(s, a).db == s.db && Next(s, a).returned == s.returned
    ensures id in Next(s, a).live <==>
            && a.Drop? && id in s.live
            && !(id < |s.db.tasks| && s.db.tasks[id].run in s.db.runs
                 && s.db.runs[s.db.tasks[id].run].workflow == a.workflow)
  {
  }

  // An attempt that parks says so on its row, and on nothing else; and takes it back when it
  // goes on.
  lemma ParkWrites(s: State, a: Step)
    requires a.Park? || a.Unpark?
    ensures Enabled(s, a) <==>
              a.id in s.live && a.id < |s.db.tasks|
              && s.db.tasks[a.id].status == (if a.Park? then InProgress else Waiting)
    ensures Enabled(s, a) ==>
              Next(s, a).db == s.db.(tasks :=
                s.db.tasks[a.id := s.db.tasks[a.id].(status := if a.Park? then Waiting else InProgress)])
  {
  }

  // A rerun of a join is its next attempt, at its own place in the order; under which stack,
  // with which entries and senders is for `Replays` to say.
  lemma RerunAddsJoin(s: State, a: Step)
    requires a.Rerun? && Enabled(s, a) && Declares(a.graphs, s.db, a.run, a.node)
    requires a.graphs[s.db.runs[a.run].workflow].nodes[a.node].join
    ensures var target, db' := a.graphs[s.db.runs[a.run].workflow].nodes[a.node], Next(s, a).db;
            && |db'.tasks| == |s.db.tasks| + 1
            && var row := db'.tasks[|s.db.tasks|];
               && AddsRow(s.db, db', row) && IsNextAttempt(s.db.tasks, a.run, a.node, row.attempt)
               && row == Task(a.run, a.node, row.attempt, Ready, row.payload, None, false, KeyOf(target).0,
                     KeyOf(target).1, a.now, row.branch, Lineage(RerunReason, row.lineage.from, row.lineage.arrivals))
  {
    hide Ops.Reopen, Ops.EnqueueRow, AddsRow, Ops.NextAttempt, Ops.LastForNode, Finalized, ArrivalsPayload,
        ArrivalSenders, Indexes;
    var target := a.graphs[s.db.runs[a.run].workflow].nodes[a.node];
    NamedAlike(a.graphs, s.db.runs[a.run].workflow, a.node);
    NextAttemptIs(s.db.tasks, a.run, a.node);
    var row := Ops.RerunRow(s.db, a.run, target, a.now).value;
    AddThenReopen(s.db, row);
    RowIsAdded(s.db, Next(s, a).db, row);
  }

  // What of a run's node is not there: the run, its workflow, or else the node.
  function Absent(db: Tables, graphs: map<string, Graph>, run: string): Ops.OpError {
    if run !in db.runs then Ops.NotFound
    else if db.runs[run].workflow !in graphs then Ops.UnknownWorkflow else Ops.UnknownNode
  }

  // Why a verb is refused: what it names is not there, or its state does not allow it.
  lemma Refusals(db: Tables, graphs: map<string, Graph>, run: string, id: nat, node: string, status: TaskStatus,
                 now: nat)
    ensures var r := Ops.Pause(db, run); r.Err? ==> r.error == if run in db.runs then Ops.Conflict else Ops.NotFound
    ensures var r := Ops.Resume(db, run); r.Err? ==> r.error == if run in db.runs then Ops.Conflict else Ops.NotFound
    ensures var r := Ops.Cancel(db, run, now);
            r.Err? ==> r.error == if run in db.runs then Ops.Conflict else Ops.NotFound
    ensures var r := Ops.Retry(db, graphs, id);
            r.Err? ==>
              r.error == if id >= |db.tasks| then Ops.NotFound
                         else if db.tasks[id].status in {Ready, InProgress, Waiting} then Ops.Conflict
                         else Absent(db, graphs, db.tasks[id].run)
    ensures var r := Ops.Move(db, graphs, id, node, now);
            r.Err? ==>
              r.error == if id >= |db.tasks| then Ops.NotFound
                         else if Declares(graphs, db, db.tasks[id].run, node) then Ops.Conflict
                         else Absent(db, graphs, db.tasks[id].run)
    ensures var r := Ops.Rerun(db, graphs, run, node, now);
            r.Err? ==> r.error == if Declares(graphs, db, run, node) then Ops.Conflict else Absent(db, graphs, run)
    ensures Ops.Settable(status) ==> var r := Ops.SetStatus(db, id, status); r.Err? ==> r.error == Ops.NotFound
  {
    hide Ops.Reopen, Ops.EnqueueRow, Ops.CancelTasks, Ops.LastForNode, Ops.NextAttempt, ArrivalsPayload,
        ArrivalSenders, Indexes;
  }
}
