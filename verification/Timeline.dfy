/** The events of a task row tell what became of it, under every step there is. */
module Timeline {
  import opened Base
  import opened Json
  import opened Graphs
  import opened Rows
  import opened Routing
  import opened Store
  import opened Machine
  import opened Nesting
  import opened Lifecycle
  import Runner
  import Ops

  // What a reader of a row's events knows of it: nothing, that it is outstanding, or how it
  // ended.
  datatype RowPhase = Unknown | Outstanding | WasDone | HasFailed | Dead | WasCancelled | Confused

  function PhaseFor(status: TaskStatus): RowPhase {
    match status
    case Done => WasDone
    case Failed => HasFailed
    case DeadLetter => Dead
    case Cancelled => WasCancelled
    case _ => Outstanding
  }

  predicate RowLevel(name: Name) {
    name.TaskEnqueued? || name.TaskDone? || name.TaskFailed? || name.TaskDeadLettered? || name.TaskCancelledEvent?
        || name.TaskStatusSet?
  }

  // A row is announced once, and ends while it is outstanding; a dead letter is a failure
  // that is not retried, and an operator may write over anything.
  function Turned(phase: RowPhase, name: Name): RowPhase {
    match name
    case TaskEnqueued(_) => if phase == Unknown then Outstanding else Confused
    case TaskDone(_, _) => if phase == Outstanding then WasDone else Confused
    case TaskFailed(_) => if phase == Outstanding then HasFailed else Confused
    case TaskDeadLettered => if phase == HasFailed then Dead else Confused
    case TaskCancelledEvent => if phase in {Outstanding, WasCancelled} then WasCancelled else Confused
    case TaskStatusSet(status) => if phase == Unknown then Confused else PhaseFor(status)
    case _ => phase
  }

  function RowPhaseOf(events: seq<Event>, id: nat): RowPhase
    decreases |events|
  {
    if events == [] then Unknown
    else
      var last := events[|events| - 1];
      var before := RowPhaseOf(events[..|events| - 1], id);
      if last.task == Some(id) then Turned(before, last.name) else before
  }

  // The events tell these phases of the first rows, and nothing of others.
  ghost predicate Told(events: seq<Event>, phases: seq<RowPhase>) {
    forall id: nat :: RowPhaseOf(events, id) == if id < |phases| then phases[id] else Unknown
  }

  function PhasesOf(tasks: seq<Task>): seq<RowPhase> {
    seq(|tasks|, i requires 0 <= i < |tasks| => PhaseFor(tasks[i].status))
  }

  ghost predicate RowsTell(db: Tables) {
    Told(db.events, PhasesOf(db.tasks))
  }

  function Opens(n: nat): seq<RowPhase> {
    seq(n, i => Outstanding)
  }

  // ------------------------------------------------------------------------
  // What one event tells
  // ------------------------------------------------------------------------

  lemma EventTurns(events: seq<Event>, e: Event, id: nat)
    ensures RowPhaseOf(events + [e], id) ==
        if e.task == Some(id) then Turned(RowPhaseOf(events, id), e.name) else RowPhaseOf(events, id)
  {
    assert (events + [e])[..|events|] == events;
  }

  lemma QuietTold(events: seq<Event>, phases: seq<RowPhase>, e: Event)
    requires Told(events, phases) && !RowLevel(e.name)
    ensures Told(events + [e], phases)
  {
    forall id: nat ensures RowPhaseOf(events + [e], id) == if id < |phases| then phases[id] else Unknown {
      EventTurns(events, e, id);
    }
  }

  lemma RowTold(events: seq<Event>, phases: seq<RowPhase>, e: Event, id: nat)
    requires Told(events, phases) && id < |phases| && e.task == Some(id)
    ensures Told(events + [e], phases[id := Turned(phases[id], e.name)])
  {
    hide Turned;
    forall other: nat
      ensures var after := phases[id := Turned(phases[id], e.name)];
              RowPhaseOf(events + [e], other) == if other < |after| then after[other] else Unknown
    {
      EventTurns(events, e, other);
    }
  }

  lemma NewTold(events: seq<Event>, phases: seq<RowPhase>, run: Option<string>, reason: Reason)
    requires Told(events, phases)
    ensures Told(events + [Event(run, Some(|phases|), TaskEnqueued(reason))], phases + [Outstanding])
  {
    var e := Event(run, Some(|phases|), TaskEnqueued(reason));
    forall id: nat
      ensures RowPhaseOf(events + [e], id) ==
          if id < |phases + [Outstanding]| then (phases + [Outstanding])[id] else Unknown
    {
      EventTurns(events, e, id);
    }
  }

  // ------------------------------------------------------------------------
  // The engine's transactions
  // ------------------------------------------------------------------------

  // The rows a change adds, each announced.
  ghost predicate Announces(db: Tables, db': Tables, phases: seq<RowPhase>) {
    |db.tasks| <= |db'.tasks| && Told(db'.events, phases + Opens(|db'.tasks| - |db.tasks|))
  }

  lemma EnqueueTold(db: Tables, row: Task, phases: seq<RowPhase>)
    requires Told(db.events, phases) && |phases| == |db.tasks|
    ensures Told(Ops.EnqueueRow(db, row).events, phases + [Outstanding])
  {
    NewTold(db.events, phases, Some(row.run), row.lineage.reason);
  }

  lemma RouteOneTold(
    db: Tables, id: nat, g: Graph, hops: seq<Hop>, fanning: bool, i: nat, now: nat, phases: seq<RowPhase>)
    requires id < |db.tasks| && Runner.Routable(g, db.tasks[id].branch, hops, fanning) && i < |hops|
    requires Told(db.events, phases) && |phases| == |db.tasks|
    ensures Announces(db, Runner.RouteOne(db, id, g, hops, fanning, i, now), phases)
  {
    hide Told, Fired, Indexes, ArrivalsPayload, ArrivalSenders;
    var frames := ChildFrames(id, db.tasks[id].branch, hops[i], i, |hops|, fanning);
    var target := g.nodes[hops[i].target];
    var run := db.tasks[id].run;
    assert Opens(1) == [Outstanding] && phases + Opens(0) == phases;
    NewTold(db.events, phases, Some(run), TransitionReason);
    if target.join {
      var frame := frames[|frames| - 1];
      var arrived := Runner.WriteArrival(db, id, Place(run, target.name, frame.fanout, frame.index), frame,
          hops[i].payload);
      QuietTold(db.events, phases, arrived.events[|db.events|]);
      NewTold(arrived.events, phases, Some(run), JoinReason);
    }
  }

  lemma {:induction false} RouteTold(
    db: Tables, id: nat, g: Graph, hops: seq<Hop>, fanning: bool, upto: nat, now: nat, phases: seq<RowPhase>)
    requires id < |db.tasks| && Runner.Routable(g, db.tasks[id].branch, hops, fanning) && upto <= |hops|
    requires Told(db.events, phases) && |phases| == |db.tasks|
    ensures Announces(db, Runner.Route(db, id, g, hops, fanning, upto, now), phases)
  {
    hide Told, Runner.RouteOne;
    if upto == 0 {
      assert phases + Opens(0) == phases;
    } else {
      RouteTold(db, id, g, hops, fanning, upto - 1, now, phases);
      var before := Runner.Route(db, id, g, hops, fanning, upto - 1, now);
      var longer := phases + Opens(|before.tasks| - |db.tasks|);
      RouteOneTold(before, id, g, hops, fanning, upto - 1, now, longer);
      var db' := Runner.Route(db, id, g, hops, fanning, upto, now);
      assert longer + Opens(|db'.tasks| - |before.tasks|) == phases + Opens(|db'.tasks| - |db.tasks|);
    }
  }

  lemma SettleTold(db: Tables, run: string, terminal: bool, now: nat, phases: seq<RowPhase>)
    requires Told(db.events, phases)
    ensures Told(Runner.SettleRun(db, run, terminal, now).events, phases)
  {
    hide Told, HasPending, HasIncomplete, Runner.RunOutput;
    QuietTold(db.events, phases, Event(Some(run), None, RunFailedEvent));
    QuietTold(db.events, phases, Event(Some(run), None, RunCompleted));
  }

  lemma SuccessTold(db: Tables, id: nat, g: Graph, value: Value, now: nat)
    requires id < |db.tasks| && EdgesOk(g.nodes) && RowsTell(db) && Runner.Success(db, id, g, value, now).Ok?
    requires Pending(db.tasks[id].status)
    ensures RowsTell(Runner.Success(db, id, g, value, now).value)
  {
    hide Told, Runner.SettleRun, Runner.Route, Runner.Reading, Jsonable, IsFanOut, Runner.HopTargets;
    var hops := Runner.Reading(db, id, g, value).value;
    var done := Finish(db, id, Done, Some(Jsonable(value)), hops == []);
    var phases := PhasesOf(db.tasks);
    RouteTold(done, id, g, hops, IsFanOut(value), |hops|, now, phases);
    var routed := Runner.Route(done, id, g, hops, IsFanOut(value), |hops|, now);
    var longer := phases + Opens(|routed.tasks| - |db.tasks|);
    RowTold(routed.events, longer,
        Event(Some(db.tasks[id].run), Some(id), TaskDone(Runner.HopTargets(hops), hops == [])), id);
    SettleTold(Runner.Written(db, id, g, value, now), db.tasks[id].run, hops == [], now, longer[id := WasDone]);
    SuccessWrites(db, id, g, value, now);
    var db' := Runner.Success(db, id, g, value, now).value;
    AddedOpen(db, done, db', id);
  }

  lemma AddedOpen(db: Tables, done: Tables, db': Tables, id: nat)
    requires id < |db.tasks| == |done.tasks|
    requires done == Finish(db, id, Done, done.tasks[id].result, done.tasks[id].terminal)
    requires Runner.Added(db.tasks[id].run, id, done.tasks, db'.tasks) && |db.tasks| <= |db'.tasks|
    ensures PhasesOf(db'.tasks) == (PhasesOf(db.tasks) + Opens(|db'.tasks| - |db.tasks|))[id := WasDone]
  {
    forall c | 0 <= c < |db'.tasks|
      ensures PhaseFor(db'.tasks[c].status) == (PhasesOf(db.tasks) + Opens(|db'.tasks| - |db.tasks|))[id := WasDone][c]
    {
      assert c >= |db.tasks| ==> Runner.Fresh(db.tasks[id].run, id, db'.tasks[c]);
    }
  }

  lemma FailureTold(db: Tables, id: nat, retryable: bool, budget: int, now: nat)
    requires id < |db.tasks| && RowsTell(db) && Pending(db.tasks[id].status)
    ensures RowsTell(Runner.Failure(db, id, retryable, budget, now))
  {
    hide Told;
    var t, phases := db.tasks[id], PhasesOf(db.tasks);
    var db' := Runner.Failure(db, id, retryable, budget, now);
    if retryable && t.attempt < budget {
      NewTold(db.events, phases, Some(t.run), RetryReason);
      RowTold(db.events + [Event(Some(t.run), Some(|db.tasks|), TaskEnqueued(RetryReason))], phases + [Outstanding],
              Event(Some(t.run), Some(id), TaskFailed(true)), id);
      assert PhasesOf(db'.tasks) == (phases + [Outstanding])[id := HasFailed];
    } else {
      var failed, dead := Event(Some(t.run), Some(id), TaskFailed(false)),
          Event(Some(t.run), Some(id), TaskDeadLettered);
      RowTold(db.events, phases, failed, id);
      RowTold(db.events + [failed], phases[id := HasFailed], dead, id);
      assert phases[id := HasFailed][id := Dead] == phases[id := Dead];
      QuietTold(db.events + [failed] + [dead], phases[id := Dead], Event(Some(t.run), None, RunFailedEvent));
      assert PhasesOf(db'.tasks) == phases[id := Dead];
    }
  }

  // ------------------------------------------------------------------------
  // The operator's verbs
  // ------------------------------------------------------------------------

  lemma EnqueueRowTells(db: Tables, row: Task)
    requires RowsTell(db) && row.status == Ready
    ensures RowsTell(Ops.EnqueueRow(db, row))
  {
    hide Told;
    EnqueueTold(db, row, PhasesOf(db.tasks));
    assert PhasesOf(Ops.EnqueueRow(db, row).tasks) == PhasesOf(db.tasks) + [Outstanding];
  }

  lemma CancelRowTells(db: Tables, id: nat)
    requires RowsTell(db) && id < |db.tasks| && Pending(db.tasks[id].status)
    ensures RowsTell(Ops.CancelTask(db, id))
  {
    hide Told;
    RowTold(db.events, PhasesOf(db.tasks), Event(Some(db.tasks[id].run), Some(id), TaskCancelledEvent), id);
    assert PhasesOf(Ops.CancelTask(db, id).tasks) == PhasesOf(db.tasks)[id := WasCancelled];
  }

  lemma ReopenRowTells(db: Tables, run: string)
    requires RowsTell(db) && run in db.runs
    ensures RowsTell(Ops.Reopen(db, run))
  {
    hide Told;
    QuietTold(db.events, PhasesOf(db.tasks), Event(Some(run), None, RunReopened));
  }

  // The rows and the events are the same, or one event more that is about no row.
  lemma QuietRowsTell(db: Tables, db': Tables)
    requires RowsTell(db) && PhasesOf(db'.tasks) == PhasesOf(db.tasks)
    requires db'.events == db.events
             || (|db'.events| == |db.events| + 1 && db'.events == db.events + [db'.events[|db.events|]]
                 && !RowLevel(db'.events[|db.events|].name))
    ensures RowsTell(db')
  {
    hide Told;
    if db'.events != db.events {
      QuietTold(db.events, PhasesOf(db.tasks), db'.events[|db.events|]);
    }
  }

  lemma {:induction false} CancelRowsTell(db: Tables, run: string, upto: nat)
    requires RowsTell(db) && upto <= |db.tasks|
    ensures RowsTell(Ops.CancelTasks(db, run, upto))
  {
    hide RowsTell;
    if upto > 0 {
      CancelRowsTell(db, run, upto - 1);
      if db.tasks[upto - 1].run == run && Pending(db.tasks[upto - 1].status) {
        CancelRowTells(Ops.CancelTasks(db, run, upto - 1), upto - 1);
      }
    }
  }

  lemma SetStatusRowTells(db: Tables, id: nat, status: TaskStatus)
    requires RowsTell(db) && Ops.Settable(status) && Ops.SetStatus(db, id, status).Ok?
    ensures RowsTell(Ops.SetStatus(db, id, status).value)
  {
    hide Told;
    var run, phases := db.tasks[id].run, PhasesOf(db.tasks);
    var written := Emit(SetTask(db, id, status), Some(run), Some(id), TaskStatusSet(status));
    RowTold(db.events, phases, Event(Some(run), Some(id), TaskStatusSet(status)), id);
    assert PhasesOf(written.tasks) == phases[id := PhaseFor(status)];
    RowTold(written.events, PhasesOf(written.tasks), Event(Some(run), Some(id), TaskCancelledEvent), id);
    if status == Cancelled {
      assert PhasesOf(written.tasks)[id := WasCancelled] == PhasesOf(written.tasks);
    } else if status == Ready {
      ReopenRowTells(written, run);
    }
  }

  lemma MoveRowTells(db: Tables, graphs: map<string, Graph>, id: nat, node: string, now: nat)
    requires RowsTell(db) && Ops.Move(db, graphs, id, node, now).Ok?
    ensures RowsTell(Ops.Move(db, graphs, id, node, now).value)
  {
    hide RowsTell, Ops.Reopen, Ops.EnqueueRow, Ops.CancelTask;
    var t := db.tasks[id];
    var target := Ops.Lookup(graphs, db.runs[t.run].workflow, node).value;
    if Pending(t.status) {
      CancelRowTells(db, id);
    }
    var stopped := if Pending(t.status) then Ops.CancelTask(db, id) else db;
    var row := Runner.NewTask(t.run, target, t.payload, 1, now, t.branch, Lineage(MoveReason, Some(id), []));
    EnqueueRowTells(stopped, row);
    var queued := Ops.EnqueueRow(stopped, row);
    var told := Emit(queued, Some(t.run), Some(id), TaskMoved(|db.tasks|));
    QuietRowsTell(queued, told);
    RunsStay(db, id, row);
    ReopenRowTells(told, t.run);
  }

  lemma RunsStay(db: Tables, id: nat, row: Task)
    requires id < |db.tasks|
    ensures Ops.EnqueueRow(Ops.CancelTask(db, id), row).runs == db.runs && Ops.EnqueueRow(db, row).runs == db.runs
  {
  }

  lemma RerunRowTells(db: Tables, graphs: map<string, Graph>, run: string, node: string, now: nat)
    requires RowsTell(db) && Ops.Rerun(db, graphs, run, node, now).Ok?
    ensures RowsTell(Ops.Rerun(db, graphs, run, node, now).value)
  {
    hide RowsTell, Ops.Reopen, Ops.EnqueueRow, Indexes, ArrivalsPayload, ArrivalSenders;
    var target := Ops.Lookup(graphs, db.runs[run].workflow, node).value;
    var row := Ops.RerunRow(db, run, target, now).value;
    EnqueueRowTells(db, row);
    RowRunsStay(db, row);
    ReopenRowTells(Ops.EnqueueRow(db, row), run);
  }

  lemma RowRunsStay(db: Tables, row: Task)
    ensures Ops.EnqueueRow(db, row).runs == db.runs
  {
  }

  lemma RetryRowTells(db: Tables, graphs: map<string, Graph>, id: nat)
    requires RowsTell(db) && Ops.Retry(db, graphs, id).Ok?
    ensures RowsTell(Ops.Retry(db, graphs, id).value)
  {
    hide RowsTell, Ops.Reopen, Ops.EnqueueRow;
    var row := Runner.RetryOf(db.tasks[id], id, ManualRetryReason);
    EnqueueRowTells(db, row);
    RowRunsStay(db, row);
    ReopenRowTells(Ops.EnqueueRow(db, row), db.tasks[id].run);
  }

  lemma SubmitRowTells(db: Tables, graphs: map<string, Graph>, workflow: string, run: string, payload: Json, now: nat)
    requires Registered(graphs) && RowsTell(db) && workflow in graphs
    ensures RowsTell(Ops.Submit(db, graphs, workflow, run, payload, now).value)
  {
    hide RowsTell, Ops.EnqueueRow, Finalized;
    var created := Emit(db.(runs := db.runs[run := Run(workflow, Queued, None, None)]), Some(run), None, RunCreated);
    QuietRowsTell(db, created);
    var start := graphs[workflow].nodes[graphs[workflow].start];
    EnqueueRowTells(created, Runner.NewTask(run, start, payload, 1, now, [], Lineage(StartReason, None, [])));
  }

  lemma CancelRunTells(db: Tables, run: string, now: nat)
    requires RowsTell(db) && Ops.Cancel(db, run, now).Ok?
    ensures RowsTell(Ops.Cancel(db, run, now).value)
  {
    hide RowsTell, Ops.CancelTasks;
    CancelRowsTell(db, run, |db.tasks|);
    QuietRowsTell(Ops.CancelTasks(db, run, |db.tasks|), Ops.Cancel(db, run, now).value);
  }

  // ------------------------------------------------------------------------
  // Every step
  // ------------------------------------------------------------------------

  // The steps that change no outcome, and tell none.
  lemma QuietStepTells(s: State, a: Step)
    requires RowsTell(s.db) && Enabled(s, a)
    requires a.Claim? || a.Park? || a.Unpark? || a.Crash? || a.Drop? || a.Pause? || a.Resume?
    ensures RowsTell(Next(s, a).db)
  {
    hide RowsTell;
    assert PhasesOf(Next(s, a).db.tasks) == PhasesOf(s.db.tasks);
    QuietRowsTell(s.db, Next(s, a).db);
  }

  lemma RecoverTells(db: Tables, names: set<string>, held: set<nat>)
    requires RowsTell(db)
    ensures RowsTell(Ops.Recover(db, names, held))
  {
    hide RowsTell;
    assert PhasesOf(Ops.Recover(db, names, held).tasks) == PhasesOf(db.tasks);
    QuietRowsTell(db, Ops.Recover(db, names, held));
  }

  lemma StepTells(s: State, a: Step)
    requires RowsTell(s.db) && LiveOk(s.db.tasks, s.live) && Enabled(s, a)
    ensures RowsTell(Next(s, a).db)
  {
    hide RowsTell, Runner.Success, Runner.Failure, ClaimRow, Ops.Recover, Ops.Pause, Ops.Resume, Ops.Cancel,
        Ops.Rerun, Ops.Retry,
         Ops.Move, Ops.SetStatus;
    match a
    case Submit(graphs, workflow, run, payload, now) => SubmitRowTells(s.db, graphs, workflow, run, payload, now);
    case Succeed(id, g, value, now) => SuccessTold(s.db, id, g, value, now);
    case Fail(id, retryable, budget, now) => FailureTold(s.db, id, retryable, budget, now);
    case Recover(names) => RecoverTells(s.db, names, s.live);
    case Cancel(run, now) => CancelRunTells(s.db, run, now);
    case Rerun(graphs, run, node, now) => RerunRowTells(s.db, graphs, run, node, now);
    case Retry(graphs, id) => RetryRowTells(s.db, graphs, id);
    case Move(graphs, id, node, now) => MoveRowTells(s.db, graphs, id, node, now);
    case SetStatus(id, status) => SetStatusRowTells(s.db, id, status);
    case _ => QuietStepTells(s, a);
  }

  lemma {:induction false} RunTells(s: State, trace: seq<Step>)
    requires RowsTell(s.db) && Steady(s) && IsRun(s, trace)
    ensures RowsTell(End(s, trace).db)
    decreases |trace|
  {
    hide RowsTell, Enabled, Next, RunsOk;
    if trace != [] {
      StepTells(s, trace[0]);
      StepSteady(s, trace[0]);
      RunTells(Next(s, trace[0]), trace[1..]);
    }
  }

  // In every run, whatever the steps, the events of a row are an announcement and then what
  // became of it: they tell whether it is outstanding or how it ended, there are events for
  // exactly the rows there are, and none is out of order.
  lemma EventsTellRows(trace: seq<Step>, id: nat)
    requires IsRun(Empty, trace)
    ensures var db := End(Empty, trace).db;
            && RowPhaseOf(db.events, id) != Confused
            && (id < |db.tasks| <==> RowPhaseOf(db.events, id) != Unknown)
            && (id < |db.tasks| ==> RowPhaseOf(db.events, id) == PhaseFor(db.tasks[id].status))
  {
    hide Enabled, Next, End;
    assert PhasesOf(Empty.db.tasks) == [];
    RunTells(Empty, trace);
  }
}
