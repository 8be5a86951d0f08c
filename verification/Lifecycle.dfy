/** The life of a run, under every step there is: its events tell its status, `finished`
    is set exactly while it is over, and a completed run has nothing left to do. */
module Lifecycle {
  import opened Base
  import opened Json
  import opened Graphs
  import opened Rows
  import opened Routing
  import opened Store
  import opened Machine
  import opened Nesting
  import opened Settlement
  import Runner
  import Ops

  // What a reader of a run's events knows of it.
  datatype Phase = Unborn | Open | Halted | Over(status: RunStatus) | Broken

  predicate RunLevel(name: Name) {
    name.RunCreated? || name.RunCompleted? || name.RunFailedEvent? || name.RunCancelledEvent? || name.RunReopened?
        || name.RunPausedEvent? || name.RunResumed?
  }

  // An ending follows a beginning, a re-opening follows an ending, and a run that is halted
  // goes on or is cancelled.
  function Shift(phase: Phase, name: Name): Phase {
    match name
    case RunCreated => if phase == Unborn then Open else Broken
    case RunCompleted => if phase == Open then Over(Completed) else Broken
    case RunFailedEvent => if phase == Open then Over(RunFailed) else Broken
    case RunCancelledEvent => if phase in {Open, Halted} then Over(RunCancelled) else Broken
    case RunReopened => if phase.Over? then Open else Broken
    case RunPausedEvent => if phase == Open then Halted else Broken
    case RunResumed => if phase == Halted then Open else Broken
    case _ => phase
  }

  function PhaseOf(events: seq<Event>, run: string): Phase
    decreases |events|
  {
    if events == [] then Unborn
    else
      var last := events[|events| - 1];
      var before := PhaseOf(events[..|events| - 1], run);
      if last.run == Some(run) then Shift(before, last.name) else before
  }

  // The phase a run's row is in. `finished` is set exactly when it is over.
  predicate Matches(phase: Phase, runs: map<string, Run>, run: string) {
    if run !in runs then phase == Unborn
    else if Terminal(runs[run].status) then phase == Over(runs[run].status) && runs[run].finished.Some?
    else phase == (if runs[run].status == Paused then Halted else Open) && runs[run].finished.None?
  }

  ghost predicate EventsTell(db: Tables) {
    forall run: string :: Matches(PhaseOf(db.events, run), db.runs, run)
  }

  // ------------------------------------------------------------------------
  // What one event tells
  // ------------------------------------------------------------------------

  lemma EmitShifts(db: Tables, of: Option<string>, task: Option<nat>, name: Name, run: string)
    ensures var before, after := PhaseOf(db.events, run), PhaseOf(Emit(db, of, task, name).events, run);
            after == if of == Some(run) then Shift(before, name) else before
  {
    var events := Emit(db, of, task, name).events;
    assert events[..|events| - 1] == db.events;
  }

  lemma QuietTells(db: Tables, of: Option<string>, task: Option<nat>, name: Name)
    requires EventsTell(db) && !RunLevel(name)
    ensures EventsTell(Emit(db, of, task, name))
  {
    forall run: string ensures Matches(PhaseOf(Emit(db, of, task, name).events, run), db.runs, run) {
      EmitShifts(db, of, task, name, run);
    }
  }

  // A new row for one run, and the event that goes with it.
  lemma RunTells(db: Tables, run: string, row: Run, name: Name)
    requires EventsTell(db)
    requires Matches(Shift(PhaseOf(db.events, run), name), db.runs[run := row], run)
    ensures EventsTell(Emit(db.(runs := db.runs[run := row]), Some(run), None, name))
  {
    hide Shift;
    var db' := db.(runs := db.runs[run := row]);
    forall other: string ensures Matches(PhaseOf(Emit(db', Some(run), None, name).events, other), db'.runs, other) {
      EmitShifts(db', Some(run), None, name, other);
      assert Matches(PhaseOf(db.events, other), db.runs, other);
    }
  }

  lemma SameTells(db: Tables, db': Tables)
    requires EventsTell(db) && db'.runs == db.runs && db'.events == db.events
    ensures EventsTell(db')
  {
  }

  lemma PhaseNow(db: Tables, run: string)
    requires EventsTell(db)
    ensures Matches(PhaseOf(db.events, run), db.runs, run)
  {
  }

  // An open run ends.
  lemma EndTells(db: Tables, run: string, row: Run, name: Name)
    requires EventsTell(db) && run in db.runs && !Terminal(db.runs[run].status)
    requires row.finished.Some?
    requires (row.status == Completed && name == RunCompleted) || (row.status == RunFailed && name == RunFailedEvent)
             || (row.status == RunCancelled && name == RunCancelledEvent)
    requires db.runs[run].status == Paused ==> row.status == RunCancelled
    ensures EventsTell(Emit(db.(runs := db.runs[run := row]), Some(run), None, name))
  {
    PhaseNow(db, run);
    RunTells(db, run, row, name);
  }

  lemma ReopenTells(db: Tables, run: string)
    requires EventsTell(db) && run in db.runs
    ensures EventsTell(Ops.Reopen(db, run))
  {
    PhaseNow(db, run);
    if Terminal(db.runs[run].status) {
      RunTells(db, run, db.runs[run].(status := Running, finished := None), RunReopened);
    }
  }

  lemma EnqueueTells(db: Tables, row: Task)
    requires EventsTell(db)
    ensures EventsTell(Ops.EnqueueRow(db, row))
  {
    SameTells(db, Enqueue(db, row));
    QuietTells(Enqueue(db, row), Some(row.run), Some(|db.tasks|), TaskEnqueued(row.lineage.reason));
  }

  lemma CancelTaskTells(db: Tables, id: nat)
    requires EventsTell(db) && id < |db.tasks|
    ensures EventsTell(Ops.CancelTask(db, id))
  {
    SameTells(db, SetTask(db, id, Cancelled));
    QuietTells(SetTask(db, id, Cancelled), Some(db.tasks[id].run), Some(id), TaskCancelledEvent);
  }

  // ------------------------------------------------------------------------
  // The engine's transactions
  // ------------------------------------------------------------------------

  lemma RouteOneTells(db: Tables, id: nat, g: Graph, hops: seq<Hop>, fanning: bool, i: nat, now: nat)
    requires id < |db.tasks| && Runner.Routable(g, db.tasks[id].branch, hops, fanning) && i < |hops|
    requires EventsTell(db)
    ensures EventsTell(Runner.RouteOne(db, id, g, hops, fanning, i, now))
  {
    hide EventsTell, Fired, Indexes, ArrivalsPayload, ArrivalSenders, Runner.NewTask;
    var frames := ChildFrames(id, db.tasks[id].branch, hops[i], i, |hops|, fanning);
    var target := g.nodes[hops[i].target];
    if !target.join {
      TransitionTells(db, id, target, hops[i], frames, now);
    } else {
      ArrivalTells(db, id, target, hops[i], frames, now);
    }
  }

  lemma TransitionTells(db: Tables, id: nat, target: Node, hop: Hop, frames: seq<Frame>, now: nat)
    requires id < |db.tasks| && EventsTell(db)
    ensures EventsTell(Runner.EnqueueTransition(db, id, target, hop, frames, now))
  {
    hide EventsTell;
    var run := db.tasks[id].run;
    var row := Runner.NewTask(run, target, hop.payload, 1, now, frames, Lineage(TransitionReason, Some(id), []));
    SameTells(db, Enqueue(db, row));
    QuietTells(Enqueue(db, row), Some(run), Some(|db.tasks|), TaskEnqueued(TransitionReason));
  }

  lemma ArrivalTells(db: Tables, id: nat, target: Node, hop: Hop, frames: seq<Frame>, now: nat)
    requires id < |db.tasks| && frames != [] && EventsTell(db)
    ensures EventsTell(Runner.RecordArrival(db, id, target, hop, frames, now))
  {
    hide EventsTell, Fired, Indexes, ArrivalsPayload, ArrivalSenders;
    var run, frame := db.tasks[id].run, frames[|frames| - 1];
    var p := Place(run, target.name, frame.fanout, frame.index);
    var late := Fired(db.tasks, p.run, p.join, p.fanout);
    var landed := Arrive(db, p, Arrival(frame.key, hop.payload, id, late));
    SameTells(db, landed);
    QuietTells(landed, Some(p.run), Some(id),
               JoinArrived(p, |Indexes(landed.arrivals, p.run, p.join, p.fanout)|, frame.count, late));
    var arrived := Runner.WriteArrival(db, id, p, frame, hop.payload);
    var row := Runner.JoinTask(arrived, run, target, frame.fanout, frames[..|frames| - 1], now);
    SameTells(arrived, Enqueue(arrived, row));
    QuietTells(Enqueue(arrived, row), Some(run), Some(|arrived.tasks|), TaskEnqueued(JoinReason));
  }

  lemma {:induction false} RouteTells(db: Tables, id: nat, g: Graph, hops: seq<Hop>, fanning: bool, upto: nat, now: nat)
    requires id < |db.tasks| && Runner.Routable(g, db.tasks[id].branch, hops, fanning) && upto <= |hops|
    requires EventsTell(db)
    ensures EventsTell(Runner.Route(db, id, g, hops, fanning, upto, now))
  {
    hide EventsTell, Runner.RouteOne;
    if upto > 0 {
      RouteTells(db, id, g, hops, fanning, upto - 1, now);
      RouteOneTells(Runner.Route(db, id, g, hops, fanning, upto - 1, now), id, g, hops, fanning, upto - 1, now);
    }
  }

  lemma SettleTells(db: Tables, run: string, terminal: bool, now: nat)
    requires EventsTell(db)
    ensures EventsTell(Runner.SettleRun(db, run, terminal, now))
  {
    hide EventsTell, HasPending, HasIncomplete, Runner.RunOutput;
    if run in db.runs && db.runs[run].status == Running {
      EndTells(db, run, db.runs[run].(status := RunFailed, finished := Some(now)), RunFailedEvent);
      EndTells(db, run, db.runs[run].(status := Completed, output := Some(Runner.RunOutput(db.tasks, run)),
          finished := Some(now)), RunCompleted);
    }
  }

  lemma SuccessTells(db: Tables, id: nat, g: Graph, value: Value, now: nat)
    requires id < |db.tasks| && EdgesOk(g.nodes) && EventsTell(db) && Runner.Success(db, id, g, value, now).Ok?
    ensures EventsTell(Runner.Success(db, id, g, value, now).value)
  {
    hide EventsTell, Runner.SettleRun, Runner.Route, Runner.Reading, Jsonable, IsFanOut, Runner.HopTargets;
    var hops := Runner.Reading(db, id, g, value).value;
    var done := Finish(db, id, Done, Some(Jsonable(value)), hops == []);
    SameTells(db, done);
    RouteTells(done, id, g, hops, IsFanOut(value), |hops|, now);
    var routed := Runner.Route(done, id, g, hops, IsFanOut(value), |hops|, now);
    QuietTells(routed, Some(db.tasks[id].run), Some(id), TaskDone(Runner.HopTargets(hops), hops == []));
    SettleTells(Runner.Written(db, id, g, value, now), db.tasks[id].run, hops == [], now);
  }

  lemma FailureTells(db: Tables, id: nat, retryable: bool, budget: int, now: nat)
    requires id < |db.tasks| && EventsTell(db)
    ensures EventsTell(Runner.Failure(db, id, retryable, budget, now))
  {
    hide EventsTell;
    var t := db.tasks[id];
    var failed := Finish(db, id, Failed, None, false);
    SameTells(db, failed);
    if retryable && t.attempt < budget {
      var row := Runner.RetryOf(t, id, RetryReason);
      EnqueueTells(failed, row);
      QuietTells(Ops.EnqueueRow(failed, row), Some(t.run), Some(id), TaskFailed(true));
    } else {
      QuietTells(failed, Some(t.run), Some(id), TaskFailed(false));
      var told := Emit(failed, Some(t.run), Some(id), TaskFailed(false));
      var dead := SetTask(told, id, DeadLetter);
      SameTells(told, dead);
      QuietTells(dead, Some(t.run), Some(id), TaskDeadLettered);
      FailRunTells(Emit(dead, Some(t.run), Some(id), TaskDeadLettered), t.run, now);
    }
  }

  lemma FailRunTells(db: Tables, run: string, now: nat)
    requires EventsTell(db)
    ensures EventsTell(Runner.FailRun(db, run, now))
  {
    hide EventsTell;
    if run in db.runs && db.runs[run].status == Running {
      EndTells(db, run, db.runs[run].(status := RunFailed, finished := Some(now)), RunFailedEvent);
    }
  }

  // A change of status that no event tells.
  lemma OpenTells(db: Tables, run: string, status: RunStatus)
    requires EventsTell(db) && run in db.runs && !Terminal(db.runs[run].status) && !Terminal(status)
    requires status == Paused <==> db.runs[run].status == Paused
    ensures EventsTell(SetRun(db, run, status, None))
  {
    forall other: string ensures Matches(PhaseOf(db.events, other), SetRun(db, run, status, None).runs, other) {
      PhaseNow(db, other);
    }
  }

  lemma ClaimTells(db: Tables, id: nat)
    requires EventsTell(db) && Claimable(db, id)
    ensures EventsTell(ClaimRow(db, id))
  {
    hide EventsTell;
    SameTells(db, SetTask(db, id, InProgress));
    OpenTells(SetTask(db, id, InProgress), db.tasks[id].run, Running);
  }

  lemma RecoverTells(db: Tables, names: set<string>, held: set<nat>)
    requires EventsTell(db)
    ensures EventsTell(Ops.Recover(db, names, held))
  {
    hide EventsTell;
    var db' := Ops.Recover(db, names, held);
    var reset := db.(tasks := db'.tasks);
    var ids := Ops.SweptIds(db, names, held, |db.tasks|);
    SameTells(db, reset);
    QuietTells(reset, None, None, EngineRecovered(ids));
  }

  // ------------------------------------------------------------------------
  // The operator's verbs
  // ------------------------------------------------------------------------

  lemma SubmitTells(db: Tables, graphs: map<string, Graph>, workflow: string, run: string, payload: Json, now: nat)
    requires Registered(graphs) && EventsTell(db) && run !in db.runs && workflow in graphs
    ensures EventsTell(Ops.Submit(db, graphs, workflow, run, payload, now).value)
  {
    hide EventsTell, Finalized;
    PhaseNow(db, run);
    var row := Run(workflow, Queued, None, None);
    RunTells(db, run, row, RunCreated);
    var created := Emit(db.(runs := db.runs[run := row]), Some(run), None, RunCreated);
    var start := graphs[workflow].nodes[graphs[workflow].start];
    EnqueueTells(created, Runner.NewTask(run, start, payload, 1, now, [], Lineage(StartReason, None, [])));
  }

  lemma PauseTells(db: Tables, run: string)
    requires EventsTell(db)
    ensures Ops.Pause(db, run).Ok? ==> EventsTell(Ops.Pause(db, run).value)
    ensures Ops.Resume(db, run).Ok? ==> EventsTell(Ops.Resume(db, run).value)
  {
    hide EventsTell;
    if run in db.runs {
      PhaseNow(db, run);
      if Ops.Pause(db, run).Ok? {
        RunTells(db, run, db.runs[run].(status := Paused), RunPausedEvent);
      }
      if Ops.Resume(db, run).Ok? {
        RunTells(db, run, db.runs[run].(status := Running), RunResumed);
      }
    }
  }

  lemma {:induction false} CancelTasksTells(db: Tables, run: string, upto: nat)
    requires EventsTell(db) && upto <= |db.tasks|
    ensures EventsTell(Ops.CancelTasks(db, run, upto))
  {
    hide EventsTell;
    if upto > 0 {
      CancelTasksTells(db, run, upto - 1);
      CancelTaskTells(Ops.CancelTasks(db, run, upto - 1), upto - 1);
    }
  }

  lemma CancelTells(db: Tables, run: string, now: nat)
    requires EventsTell(db) && Ops.Cancel(db, run, now).Ok?
    ensures EventsTell(Ops.Cancel(db, run, now).value)
  {
    hide EventsTell;
    CancelTasksTells(db, run, |db.tasks|);
    var stopped := Ops.CancelTasks(db, run, |db.tasks|);
    EndTells(stopped, run, stopped.runs[run].(status := RunCancelled, finished := Some(now)), RunCancelledEvent);
  }

  lemma RerunTells(db: Tables, graphs: map<string, Graph>, run: string, node: string, now: nat)
    requires EventsTell(db) && Ops.Rerun(db, graphs, run, node, now).Ok?
    ensures EventsTell(Ops.Rerun(db, graphs, run, node, now).value)
  {
    hide EventsTell, Ops.RerunRow, Ops.Reopen, Ops.EnqueueRow;
    var target := Ops.Lookup(graphs, db.runs[run].workflow, node).value;
    var row := Ops.RerunRow(db, run, target, now).value;
    EnqueueTells(db, row);
    EnqueueKeepsRuns(db, row);
    ReopenTells(Ops.EnqueueRow(db, row), run);
  }

  lemma EnqueueKeepsRuns(db: Tables, row: Task)
    ensures Ops.EnqueueRow(db, row).runs == db.runs
  {
  }

  lemma RetryTells(db: Tables, graphs: map<string, Graph>, id: nat)
    requires EventsTell(db) && Ops.Retry(db, graphs, id).Ok?
    ensures EventsTell(Ops.Retry(db, graphs, id).value)
  {
    hide EventsTell, Ops.Reopen, Ops.EnqueueRow;
    var row := Runner.RetryOf(db.tasks[id], id, ManualRetryReason);
    EnqueueTells(db, row);
    EnqueueKeepsRuns(db, row);
    ReopenTells(Ops.EnqueueRow(db, row), db.tasks[id].run);
  }

  lemma MoveTells(db: Tables, graphs: map<string, Graph>, id: nat, node: string, now: nat)
    requires EventsTell(db) && Ops.Move(db, graphs, id, node, now).Ok?
    ensures EventsTell(Ops.Move(db, graphs, id, node, now).value)
  {
    hide EventsTell, Ops.Reopen, Ops.EnqueueRow;
    var t := db.tasks[id];
    var target := Ops.Lookup(graphs, db.runs[t.run].workflow, node).value;
    CancelTaskTells(db, id);
    var stopped := if Pending(t.status) then Ops.CancelTask(db, id) else db;
    var row := Runner.NewTask(t.run, target, t.payload, 1, now, t.branch, Lineage(MoveReason, Some(id), []));
    EnqueueTells(stopped, row);
    EnqueueKeepsRuns(stopped, row);
    QuietTells(Ops.EnqueueRow(stopped, row), Some(t.run), Some(id), TaskMoved(|db.tasks|));
    ReopenTells(Emit(Ops.EnqueueRow(stopped, row), Some(t.run), Some(id), TaskMoved(|db.tasks|)), t.run);
  }

  lemma SetStatusTells(db: Tables, id: nat, status: TaskStatus)
    requires EventsTell(db) && Ops.Settable(status) && Ops.SetStatus(db, id, status).Ok?
    ensures EventsTell(Ops.SetStatus(db, id, status).value)
  {
    hide EventsTell, Ops.Reopen;
    var run := db.tasks[id].run;
    SameTells(db, SetTask(db, id, status));
    QuietTells(SetTask(db, id, status), Some(run), Some(id), TaskStatusSet(status));
    var written := Emit(SetTask(db, id, status), Some(run), Some(id), TaskStatusSet(status));
    QuietTells(written, Some(run), Some(id), TaskCancelledEvent);
    if status == Ready {
      ReopenTells(written, run);
    }
  }

  lemma StepTells(s: State, a: Step)
    requires EventsTell(s.db) && Enabled(s, a)
    ensures EventsTell(Next(s, a).db)
  {
    hide EventsTell, Runner.Success, Runner.Failure, ClaimRow, Ops.Recover, Ops.Pause, Ops.Resume, Ops.Cancel,
        Ops.Rerun, Ops.Retry,
         Ops.Move, Ops.SetStatus;
    match a
    case Submit(graphs, workflow, run, payload, now) => SubmitTells(s.db, graphs, workflow, run, payload, now);
    case Claim(id) => ClaimTells(s.db, id);
    case Park(id) => SameTells(s.db, Next(s, a).db);
    case Unpark(id) => SameTells(s.db, Next(s, a).db);
    case Succeed(id, g, value, now) => SuccessTells(s.db, id, g, value, now);
    case Fail(id, retryable, budget, now) => FailureTells(s.db, id, retryable, budget, now);
    case Recover(names) => RecoverTells(s.db, names, s.live);
    case Pause(run) => PauseTells(s.db, run);
    case Resume(run) => PauseTells(s.db, run);
    case Cancel(run, now) => CancelTells(s.db, run, now);
    case Rerun(graphs, run, node, now) => RerunTells(s.db, graphs, run, node, now);
    case Retry(graphs, id) => RetryTells(s.db, graphs, id);
    case Move(graphs, id, node, now) => MoveTells(s.db, graphs, id, node, now);
    case SetStatus(id, status) => SetStatusTells(s.db, id, status);
    case _ =>
  }

  lemma {:induction false} RunTellsAll(s: State, trace: seq<Step>)
    requires EventsTell(s.db) && IsRun(s, trace)
    ensures EventsTell(End(s, trace).db)
    decreases |trace|
  {
    hide EventsTell, Enabled, Next;
    if trace != [] {
      StepTells(s, trace[0]);
      RunTellsAll(Next(s, trace[0]), trace[1..]);
    }
  }

  // In every run, whatever the steps, the events of a run are a creation, then pauses and
  // resumptions, endings and re-openings in turn; the last of them tells whether the run is
  // paused, or over and how; and `finished` is set exactly when it is over.
  lemma EventsTellStatus(trace: seq<Step>, run: string)
    requires IsRun(Empty, trace)
    ensures var db := End(Empty, trace).db;
            var phase := PhaseOf(db.events, run);
            && phase != Broken
            && (run in db.runs <==> phase != Unborn)
            && (run in db.runs ==> (db.runs[run].finished.Some? <==> Terminal(db.runs[run].status)))
            && (run in db.runs ==> (Terminal(db.runs[run].status) <==> phase.Over?))
            && (phase.Over? ==> run in db.runs && phase.status == db.runs[run].status)
            && (run in db.runs ==> (db.runs[run].status == Paused <==> phase == Halted))
  {
    hide Enabled, Next, End;
    assert EventsTell(Empty.db);
    RunTellsAll(Empty, trace);
    PhaseNow(End(Empty, trace).db, run);
  }

  // ------------------------------------------------------------------------
  // Leaving a terminal status
  // ------------------------------------------------------------------------

  // The run a step re-opens, if it is a verb that may.
  function Reopens(s: State, a: Step): Option<string> {
    if a.Rerun? then Some(a.run)
    else if (a.Retry? || a.Move? || (a.SetStatus? && a.status == Ready)) && a.id < |s.db.tasks| then
        Some(s.db.tasks[a.id].run)
    else None
  }

  lemma CancelTasksRuns(db: Tables, run: string, now: nat)
    requires Ops.Cancel(db, run, now).Ok?
    ensures run in db.runs && !Terminal(db.runs[run].status)
    ensures forall other | other in db.runs && other != run ::
              other in Ops.Cancel(db, run, now).value.runs
                  && Ops.Cancel(db, run, now).value.runs[other] == db.runs[other]
  {
  }

  lemma ReopenRuns(db: Tables, run: string)
    requires run in db.runs
    ensures Ops.Reopen(db, run).runs == if Terminal(db.runs[run].status)
              then db.runs[run := db.runs[run].(status := Running, finished := None)] else db.runs
  {
  }

  // How a run that is over comes out of a step.
  predicate Leaves(s: State, a: Step, run: string)
    requires Enabled(s, a) && run in s.db.runs && Terminal(s.db.runs[run].status)
  {
    var runs' := Next(s, a).db.runs;
    && run in runs'
    && runs'[run] == if Reopens(s, a) == Some(run) then s.db.runs[run].(status := Running, finished := None)
        else s.db.runs[run]
  }

  lemma RerunLeaves(s: State, a: Step, run: string)
    requires Enabled(s, a) && run in s.db.runs && Terminal(s.db.runs[run].status) && a.Rerun?
    ensures Leaves(s, a, run)
  {
    hide Ops.Reopen, Ops.RerunRow;
    var target := Ops.Lookup(a.graphs, s.db.runs[a.run].workflow, a.node).value;
    ReopenRuns(Ops.EnqueueRow(s.db, Ops.RerunRow(s.db, a.run, target, a.now).value), a.run);
  }

  lemma RetryLeaves(s: State, a: Step, run: string)
    requires Enabled(s, a) && run in s.db.runs && Terminal(s.db.runs[run].status) && a.Retry?
    ensures Leaves(s, a, run)
  {
    hide Ops.Reopen;
    ReopenRuns(Ops.EnqueueRow(s.db, Runner.RetryOf(s.db.tasks[a.id], a.id, ManualRetryReason)), s.db.tasks[a.id].run);
  }

  lemma SetStatusLeaves(s: State, a: Step, run: string)
    requires Enabled(s, a) && run in s.db.runs && Terminal(s.db.runs[run].status) && a.SetStatus?
    ensures Leaves(s, a, run)
  {
    hide Ops.Reopen;
    var t := s.db.tasks[a.id];
    if a.status == Ready {
      ReopenRuns(Emit(SetTask(s.db, a.id, a.status), Some(t.run), Some(a.id), TaskStatusSet(a.status)), t.run);
    }
  }

  lemma AttemptLeaves(s: State, a: Step, run: string)
    requires Enabled(s, a) && run in s.db.runs && Terminal(s.db.runs[run].status)
    requires a.Submit? || a.Fail? || a.Pause? || a.Resume?
    ensures Leaves(s, a, run)
  {
    hide Runner.Priority;
  }

  lemma ClaimLeaves(s: State, a: Step, run: string)
    requires Enabled(s, a) && run in s.db.runs && Terminal(s.db.runs[run].status)
    requires a.Claim? || a.Park? || a.Unpark? || a.Crash? || a.Drop? || a.Recover?
    ensures Leaves(s, a, run)
  {
  }

  // A run that is over changes only by a verb that re-opens it, and then in no more than
  // its status and its stamp.
  lemma LeftByReopening(s: State, a: Step, run: string)
    requires Enabled(s, a) && run in s.db.runs && Terminal(s.db.runs[run].status)
    ensures var runs' := Next(s, a).db.runs;
            && run in runs'
            && runs'[run] == if Reopens(s, a) == Some(run) then s.db.runs[run].(status := Running, finished := None)
                else s.db.runs[run]
  {
    hide Enabled, Apply, Next;
    assert Leaves(s, a, run) by {
      hide Leaves;
      match a
      case Cancel(_, _) => CancelLeaves(s, a, run);
      case Succeed(_, _, _, _) => SuccessLeaves(s, a, run);
      case Rerun(_, _, _, _) => RerunLeaves(s, a, run);
      case Retry(_, _) => RetryLeaves(s, a, run);
      case Move(_, _, _, _) => MoveLeaves(s, a, run);
      case SetStatus(_, _) => SetStatusLeaves(s, a, run);
      case _ =>
        if a.Submit? || a.Fail? || a.Pause? || a.Resume? {
          AttemptLeaves(s, a, run);
        } else {
          ClaimLeaves(s, a, run);
        }
    }
  }

  lemma CancelLeaves(s: State, a: Step, run: string)
    requires Enabled(s, a) && run in s.db.runs && Terminal(s.db.runs[run].status) && a.Cancel?
    ensures Leaves(s, a, run)
  {
    hide Ops.Cancel;
    CancelTasksRuns(s.db, a.run, a.now);
  }

  lemma MoveLeaves(s: State, a: Step, run: string)
    requires Enabled(s, a) && run in s.db.runs && Terminal(s.db.runs[run].status) && a.Move?
    ensures Leaves(s, a, run)
  {
    hide Ops.Move;
    MoveReopens(s, a);
  }

  lemma MoveReopens(s: State, a: Step)
    requires a.Move? && Enabled(s, a)
    ensures a.id < |s.db.tasks| && s.db.tasks[a.id].run in s.db.runs
    ensures var run := s.db.tasks[a.id].run;
            Next(s, a).db.runs == if Terminal(s.db.runs[run].status)
              then s.db.runs[run := s.db.runs[run].(status := Running, finished := None)] else s.db.runs
  {
  }

  lemma SuccessLeaves(s: State, a: Step, run: string)
    requires a.Succeed? && Enabled(s, a) && run in s.db.runs && Terminal(s.db.runs[run].status)
    ensures Leaves(s, a, run)
  {
    hide Runner.Reading, Runner.RunOutput, HasPending, HasIncomplete, Runner.Route, Jsonable, IsFanOut;
  }

  // ------------------------------------------------------------------------
  // A completed run has nothing left to do
  // ------------------------------------------------------------------------

  // The rows of the run are as they were but for their status, and none is new.
  predicate SameRows(tasks: seq<Task>, tasks': seq<Task>, run: string) {
    && |tasks| <= |tasks'|
    && (forall id | 0 <= id < |tasks| :: tasks'[id].run == tasks[id].run && tasks'[id].branch == tasks[id].branch)
    && (forall id | |tasks| <= id < |tasks'| :: tasks'[id].run != run)
  }

  lemma {:induction false} WidthsSame(tasks: seq<Task>, tasks': seq<Task>, run: string)
    requires SameRows(tasks, tasks', run)
    ensures Widths(tasks', run) == Widths(tasks, run)
    decreases |tasks'|
  {
    if |tasks'| > 0 {
      var before' := tasks'[..|tasks'| - 1];
      if |tasks'| > |tasks| {
        WidthsSame(tasks, before', run);
      } else {
        WidthsSame(tasks[..|tasks| - 1], before', run);
      }
    }
  }

  predicate SameArrivals(arrivals: map<Place, Arrival>, arrivals': map<Place, Arrival>, run: string) {
    && (forall p | p in arrivals && p.run == run :: p in arrivals')
    && (forall p | p in arrivals' && p.run == run :: p in arrivals)
  }

  predicate Finished(db: Tables, run: string) {
    !HasPending(db.tasks, run) && !HasIncomplete(db, run)
  }

  predicate CompletedAreFinished(db: Tables) {
    forall run | run in db.runs && db.runs[run].status == Completed :: Finished(db, run)
  }

  lemma StaysFinished(db: Tables, db': Tables, run: string)
    requires Finished(db, run) && SameRows(db.tasks, db'.tasks, run) && SameArrivals(db.arrivals, db'.arrivals, run)
    requires forall id | 0 <= id < |db.tasks| && db.tasks[id].run == run ::
               Pending(db'.tasks[id].status) ==> Pending(db.tasks[id].status)
    ensures Finished(db', run)
  {
    hide Widths;
    WidthsSame(db.tasks, db'.tasks, run);
    forall p | p in db'.arrivals ensures !Short(db', run, p) {
      if p.run == run {
        assert !Short(db, run, p);
        assert Indexes(db'.arrivals, run, p.join, p.fanout) == Indexes(db.arrivals, run, p.join, p.fanout);
      }
    }
  }

  // What keeps it so: attempts run for pending rows only, and for runs there are.
  predicate Steady(s: State) {
    LiveOk(s.db.tasks, s.live) && RunsOk(s.db)
  }

  lemma HeldNotFinished(s: State, id: nat)
    requires Steady(s) && Held(s, id)
    ensures !Finished(s.db, s.db.tasks[id].run)
  {
    assert Pending(s.db.tasks[id].status);
  }

  // A step away from a completed run.
  lemma ElsewhereFinished(s: State, db': Tables, run: string)
    requires CompletedAreFinished(s.db) && run in s.db.runs && s.db.runs[run].status == Completed
    requires SameRows(s.db.tasks, db'.tasks, run) && SameArrivals(s.db.arrivals, db'.arrivals, run)
    requires forall id | 0 <= id < |s.db.tasks| && s.db.tasks[id].run == run ::
               Pending(db'.tasks[id].status) ==> Pending(s.db.tasks[id].status)
    ensures Finished(db', run)
  {
    StaysFinished(s.db, db', run);
  }

  lemma {:induction false} RouteElsewhere(
    db: Tables, id: nat, g: Graph, hops: seq<Hop>, fanning: bool, upto: nat, now: nat, run: string)
    requires id < |db.tasks| && Runner.Routable(g, db.tasks[id].branch, hops, fanning) && upto <= |hops|
    requires run != db.tasks[id].run
    ensures SameArrivals(db.arrivals, Runner.Route(db, id, g, hops, fanning, upto, now).arrivals, run)
  {
    hide Fired, Indexes, ArrivalsPayload, ArrivalSenders, Runner.RouteOne;
    if upto > 0 {
      RouteElsewhere(db, id, g, hops, fanning, upto - 1, now, run);
      RouteOneElsewhere(Runner.Route(db, id, g, hops, fanning, upto - 1, now), id, g, hops, fanning, upto - 1, now,
          run);
    }
  }

  lemma RouteOneElsewhere(db: Tables, id: nat, g: Graph, hops: seq<Hop>, fanning: bool, i: nat, now: nat, run: string)
    requires id < |db.tasks| && Runner.Routable(g, db.tasks[id].branch, hops, fanning) && i < |hops|
    requires run != db.tasks[id].run
    ensures SameArrivals(db.arrivals, Runner.RouteOne(db, id, g, hops, fanning, i, now).arrivals, run)
  {
    hide Fired, Indexes, ArrivalsPayload, ArrivalSenders;
  }

  lemma SuccessFinishes(s: State, a: Step)
    requires Steady(s) && CompletedAreFinished(s.db) && a.Succeed? && Enabled(s, a)
    ensures CompletedAreFinished(Next(s, a).db)
  {
    hide Finished, Runner.Written, Runner.SettleRun, Runner.Route, Runner.Reading, Jsonable, IsFanOut, Steady;
    var s', own := Next(s, a), s.db.tasks[a.id].run;
    HeldNotFinished(s, a.id);
    forall run | run in s'.db.runs && s'.db.runs[run].status == Completed ensures Finished(s'.db, run) {
      SuccessRun(s, a, run);
      if run != own {
        SuccessElsewhere(s, a, run);
        ElsewhereFinished(s, s'.db, run);
      }
    }
  }

  // The runs a success leaves: its own settled, the others as they were.
  lemma SuccessRun(s: State, a: Step, run: string)
    requires a.Succeed? && Enabled(s, a) && run in Next(s, a).db.runs
    ensures run in s.db.runs
    ensures run != s.db.tasks[a.id].run ==> Next(s, a).db.runs[run] == s.db.runs[run]
    ensures run == s.db.tasks[a.id].run && s.db.runs[run].status != Running ==>
        Next(s, a).db.runs[run] == s.db.runs[run]
    ensures run == s.db.tasks[a.id].run && s.db.runs[run].status == Running ==>
              (Next(s, a).db.runs[run].status == Completed ==> Finished(Next(s, a).db, run))
  {
    hide HasPending, HasIncomplete, Runner.RunOutput, Runner.Route, Runner.Reading, Jsonable, IsFanOut;
    if run == s.db.tasks[a.id].run && s.db.runs[run].status == Running {
      SuccessSettles(s, a);
    }
  }

  lemma SuccessElsewhere(s: State, a: Step, run: string)
    requires a.Succeed? && Enabled(s, a) && run != s.db.tasks[a.id].run
    ensures SameRows(s.db.tasks, Next(s, a).db.tasks, run)
    ensures SameArrivals(s.db.arrivals, Next(s, a).db.arrivals, run)
    ensures forall id | 0 <= id < |s.db.tasks| && id != a.id :: Next(s, a).db.tasks[id] == s.db.tasks[id]
  {
    hide Runner.Written, Runner.SettleRun, Runner.Route, Runner.Reading, Jsonable, IsFanOut;
    var hops := Runner.Reading(s.db, a.id, a.g, a.value).value;
    var done := Finish(s.db, a.id, Done, Some(Jsonable(a.value)), hops == []);
    SuccessWrites(s.db, a.id, a.g, a.value, a.now);
    RouteElsewhere(done, a.id, a.g, hops, IsFanOut(a.value), |hops|, a.now, run);
    var tasks' := Next(s, a).db.tasks;
    forall id | |s.db.tasks| <= id < |tasks'| ensures tasks'[id].run != run {
      assert Runner.Fresh(s.db.tasks[a.id].run, a.id, tasks'[id]);
    }
  }

  lemma FailureFinishes(s: State, a: Step)
    requires Steady(s) && CompletedAreFinished(s.db) && a.Fail? && Enabled(s, a)
    ensures CompletedAreFinished(Next(s, a).db)
  {
    hide Finished, Steady;
    HeldNotFinished(s, a.id);
    forall run | run in Next(s, a).db.runs && Next(s, a).db.runs[run].status == Completed
      ensures Finished(Next(s, a).db, run)
    {
      ElsewhereFinished(s, Next(s, a).db, run);
    }
  }

  lemma ClaimFinishes(s: State, a: Step)
    requires Steady(s) && CompletedAreFinished(s.db) && (a.Claim? || a.Park? || a.Unpark?) && Enabled(s, a)
    ensures CompletedAreFinished(Next(s, a).db)
  {
    hide Finished;
    forall run | run in Next(s, a).db.runs && Next(s, a).db.runs[run].status == Completed
      ensures Finished(Next(s, a).db, run)
    {
      ElsewhereFinished(s, Next(s, a).db, run);
    }
  }

  lemma RecoverFinishes(s: State, a: Step)
    requires CompletedAreFinished(s.db) && (a.Recover? || a.Cancel?) && Enabled(s, a)
    ensures CompletedAreFinished(Next(s, a).db)
  {
    hide Finished;
    forall run | run in Next(s, a).db.runs && Next(s, a).db.runs[run].status == Completed
      ensures Finished(Next(s, a).db, run)
    {
      ElsewhereFinished(s, Next(s, a).db, run);
    }
  }

  lemma QuietFinishes(s: State, a: Step)
    requires CompletedAreFinished(s.db) && (a.Crash? || a.Drop? || a.Pause? || a.Resume?) && Enabled(s, a)
    ensures CompletedAreFinished(Next(s, a).db)
  {
    hide Finished;
    forall run | run in Next(s, a).db.runs && Next(s, a).db.runs[run].status == Completed
      ensures Finished(Next(s, a).db, run)
    {
      ElsewhereFinished(s, Next(s, a).db, run);
    }
  }

  lemma SubmitFinishes(s: State, a: Step)
    requires CompletedAreFinished(s.db) && a.Submit? && Enabled(s, a)
    ensures CompletedAreFinished(Next(s, a).db)
  {
    hide Finished, Runner.Priority;
    forall run | run in Next(s, a).db.runs && Next(s, a).db.runs[run].status == Completed
      ensures Finished(Next(s, a).db, run)
    {
      ElsewhereFinished(s, Next(s, a).db, run);
    }
  }

  lemma RerunFinishes(s: State, a: Step)
    requires CompletedAreFinished(s.db) && a.Rerun? && Enabled(s, a)
    ensures CompletedAreFinished(Next(s, a).db)
  {
    hide Finished, Indexes, ArrivalsPayload, ArrivalSenders, Runner.Priority;
    forall run | run in Next(s, a).db.runs && Next(s, a).db.runs[run].status == Completed
      ensures Finished(Next(s, a).db, run)
    {
      ElsewhereFinished(s, Next(s, a).db, run);
    }
  }

  lemma RetryFinishes(s: State, a: Step)
    requires CompletedAreFinished(s.db) && a.Retry? && Enabled(s, a)
    ensures CompletedAreFinished(Next(s, a).db)
  {
    hide Finished;
    forall run | run in Next(s, a).db.runs && Next(s, a).db.runs[run].status == Completed
      ensures Finished(Next(s, a).db, run)
    {
      ElsewhereFinished(s, Next(s, a).db, run);
    }
  }

  lemma MoveFinishes(s: State, a: Step)
    requires CompletedAreFinished(s.db) && a.Move? && Enabled(s, a)
    ensures CompletedAreFinished(Next(s, a).db)
  {
    hide Finished, Ops.Move;
    MoveReopens(s, a);
    MoveAdds(s.db, a.graphs, a.id, a.node, a.now);
    forall run | run in Next(s, a).db.runs && Next(s, a).db.runs[run].status == Completed
      ensures Finished(Next(s, a).db, run)
    {
      ElsewhereFinished(s, Next(s, a).db, run);
    }
  }

  lemma SetStatusFinishes(s: State, a: Step)
    requires CompletedAreFinished(s.db) && a.SetStatus? && Enabled(s, a)
    ensures CompletedAreFinished(Next(s, a).db)
  {
    hide Finished;
    forall run | run in Next(s, a).db.runs && Next(s, a).db.runs[run].status == Completed
      ensures Finished(Next(s, a).db, run)
    {
      ElsewhereFinished(s, Next(s, a).db, run);
    }
  }

  lemma StepFinishes(s: State, a: Step)
    requires Steady(s) && CompletedAreFinished(s.db) && Enabled(s, a)
    ensures CompletedAreFinished(Next(s, a).db)
  {
    hide CompletedAreFinished, Steady, Enabled, Next;
    match a
    case Succeed(_, _, _, _) => SuccessFinishes(s, a);
    case Fail(_, _, _, _) => FailureFinishes(s, a);
    case Submit(_, _, _, _, _) => SubmitFinishes(s, a);
    case Rerun(_, _, _, _) => RerunFinishes(s, a);
    case Retry(_, _) => RetryFinishes(s, a);
    case Move(_, _, _, _) => MoveFinishes(s, a);
    case SetStatus(_, _) => SetStatusFinishes(s, a);
    case Cancel(_, _) => RecoverFinishes(s, a);
    case Recover(_) => RecoverFinishes(s, a);
    case Claim(_) => ClaimFinishes(s, a);
    case Park(_) => ClaimFinishes(s, a);
    case Unpark(_) => ClaimFinishes(s, a);
    case _ => QuietFinishes(s, a);
  }

  // ------------------------------------------------------------------------
  // Attempts run for pending rows
  // ------------------------------------------------------------------------

  lemma SuccessSteady(s: State, a: Step)
    requires Steady(s) && Enabled(s, a) && a.Succeed?
    ensures Steady(Next(s, a))
  {
    hide Runner.Written, Runner.SettleRun, Runner.Route, Runner.Reading, Jsonable, IsFanOut;
    SuccessWrites(s.db, a.id, a.g, a.value, a.now);
    var tasks' := Next(s, a).db.tasks;
    forall id | 0 <= id < |tasks'| && id != a.id
      ensures if id < |s.db.tasks| then tasks'[id] == s.db.tasks[id] else tasks'[id].run == s.db.tasks[a.id].run
    {
      assert id >= |s.db.tasks| ==> Runner.Fresh(s.db.tasks[a.id].run, a.id, tasks'[id]);
    }
  }

  lemma EngineSteady(s: State, a: Step)
    requires Steady(s) && Enabled(s, a) && (a.Submit? || a.Fail? || a.Recover? || a.Crash? || a.Drop?)
    ensures Steady(Next(s, a))
  {
    hide Runner.Priority;
  }

  lemma ClaimSteady(s: State, a: Step)
    requires Steady(s) && Enabled(s, a) && (a.Claim? || a.Park? || a.Unpark? || a.Pause? || a.Resume?)
    ensures Steady(Next(s, a))
  {
  }

  lemma OperatorSteady(s: State, a: Step)
    requires Steady(s) && Enabled(s, a) && (a.Cancel? || a.Retry? || a.SetStatus?)
    ensures Steady(Next(s, a))
  {
  }

  lemma RerunSteady(s: State, a: Step)
    requires Steady(s) && Enabled(s, a) && (a.Rerun? || a.Move?)
    ensures Steady(Next(s, a))
  {
    hide Indexes, ArrivalsPayload, ArrivalSenders, Runner.Priority, Ops.Move;
    if a.Move? {
      MoveAdds(s.db, a.graphs, a.id, a.node, a.now);
    }
  }

  lemma StepSteady(s: State, a: Step)
    requires Steady(s) && Enabled(s, a)
    ensures Steady(Next(s, a))
  {
    hide Steady, Enabled, Next;
    match a
    case Succeed(_, _, _, _) => SuccessSteady(s, a);
    case Rerun(_, _, _, _) => RerunSteady(s, a);
    case Move(_, _, _, _) => RerunSteady(s, a);
    case Cancel(_, _) => OperatorSteady(s, a);
    case Retry(_, _) => OperatorSteady(s, a);
    case SetStatus(_, _) => OperatorSteady(s, a);
    case Claim(_) => ClaimSteady(s, a);
    case Park(_) => ClaimSteady(s, a);
    case Unpark(_) => ClaimSteady(s, a);
    case Pause(_) => ClaimSteady(s, a);
    case Resume(_) => ClaimSteady(s, a);
    case _ => EngineSteady(s, a);
  }

  lemma {:induction false} RunFinishes(s: State, trace: seq<Step>)
    requires Steady(s) && CompletedAreFinished(s.db) && IsRun(s, trace)
    ensures Steady(End(s, trace)) && CompletedAreFinished(End(s, trace).db)
    decreases |trace|
  {
    hide Steady, CompletedAreFinished, Enabled, Next;
    if trace != [] {
      StepSteady(s, trace[0]);
      StepFinishes(s, trace[0]);
      RunFinishes(Next(s, trace[0]), trace[1..]);
    }
  }

  // In every run, whatever the steps, a completed run has no pending row and no join the
  // store finds incomplete, and every attempt runs for a row that is in progress or
  // waiting.
  lemma CompletedIsFinished(trace: seq<Step>, run: string, id: nat)
    requires IsRun(Empty, trace)
    ensures var s := End(Empty, trace);
            && (run in s.db.runs && s.db.runs[run].status == Completed ==>
                !HasPending(s.db.tasks, run) && !HasIncomplete(s.db, run))
            && (id in s.live ==> id < |s.db.tasks| && Interrupted(s.db.tasks[id].status))
  {
    hide Enabled, Next, End, HasPending, HasIncomplete;
    RunFinishes(Empty, trace);
  }

  // So a completed run has a join with some but not all of its arrivals only where every
  // branch of the fan-out went straight to a join.
  lemma CompletedPartials(trace: seq<Step>, p: Place)
    requires ForwardRun(Empty, trace)
    ensures var s := End(Empty, trace);
            p.run in s.db.runs && s.db.runs[p.run].status == Completed && Partial(s, p) ==>
                !SendsToNode(s.returned[p.fanout])
  {
    hide Settlement.Sound, EngineInv, End, HasIncomplete, Enabled, Next;
    EmptySound();
    RunSound(Empty, trace);
    CompletedIsFinished(trace, p.run, 0);
    IncompleteMeans(End(Empty, trace), p.run);
  }
}
