/** What a row and a run are left with: a row the JSON of what its attempt returned, a
    completed run the results of its terminal rows (athanore/engine/runner.py). */
module Results {
  import opened Base
  import opened Json
  import opened Graphs
  import opened Rows
  import opened Routing
  import opened Store
  import opened Machine
  import opened Lifecycle
  import opened Nesting
  import opened Outputs
  import opened Successors
  import opened Interventions
  import Runner
  import Ops

  // ------------------------------------------------------------------------
  // The result of a row
  // ------------------------------------------------------------------------

  // The step records an outcome of the row.
  predicate Records(a: Step, id: nat) {
    (a.Succeed? || a.Fail?) && a.id == id
  }

  // The last outcome recorded, if any.
  function LastOutcome(trace: seq<Step>, id: nat, before: Option<Step>): Option<Step>
    decreases |trace|
  {
    if trace == [] then before
    else LastOutcome(trace[1..], id, if Records(trace[0], id) then Some(trace[0]) else before)
  }

  // The value ends its branch: the empty list, or a plain value where no edge leads on.
  predicate Ends(node: Node, v: Value) {
    if Routed(v) then ItemsOf(v) == [] else node.edges == []
  }

  // A row has the JSON of the value of its last outcome, and is terminal when that ended its
  // branch; it has neither after a failure, or before any outcome.
  predicate ResultOk(t: Task, last: Option<Step>) {
    match last
    case None => t.result == None && !t.terminal && t.status !in {Done, Failed}
    case Some(a) =>
      if a.Succeed? then
        && t.node in a.g.nodes && t.result == Some(Jsonable(a.value))
        && (t.terminal <==> Ends(a.g.nodes[t.node], a.value)) && t.status != Failed
      else t.result == None && !t.terminal && t.status != Done
  }

  predicate RowOk(tasks: seq<Task>, id: nat, last: Option<Step>) {
    if id < |tasks| then ResultOk(tasks[id], last) else last == None
  }

  // A step that records nothing: rows keep what they have, and none becomes done or failed.
  predicate KeepsResults(tasks: seq<Task>, tasks': seq<Task>) {
    && |tasks| <= |tasks'|
    && (forall c | 0 <= c < |tasks| ::
          && tasks'[c].run == tasks[c].run && tasks'[c].branch == tasks[c].branch
          && tasks'[c].node == tasks[c].node && tasks'[c].result == tasks[c].result
          && tasks'[c].terminal == tasks[c].terminal
          && (tasks'[c].status in {Done, Failed} ==> tasks'[c].status == tasks[c].status))
    && (forall c | |tasks| <= c < |tasks'| ::
          tasks'[c].result == None && !tasks'[c].terminal && tasks'[c].status == Ready)
  }

  lemma RowKept(tasks: seq<Task>, tasks': seq<Task>, id: nat, last: Option<Step>)
    requires RowOk(tasks, id, last) && KeepsResults(tasks, tasks')
    ensures RowOk(tasks', id, last)
  {
  }

  lemma SuccessResult(s: State, a: Step, id: nat, last: Option<Step>)
    requires a.Succeed? && Enabled(s, a) && RowOk(s.db.tasks, id, last)
    ensures RowOk(Next(s, a).db.tasks, id, if a.id == id then Some(a) else last)
  {
    hide Runner.Written, Runner.SettleRun, Runner.Route, Runner.Reading, Jsonable, Interpret, Ends, Routed;
    ReadingIs(s, a);
    SuccessWrites(s.db, a.id, a.g, a.value, a.now);
    var tasks' := Next(s, a).db.tasks;
    var hops := Runner.Reading(s.db, a.id, a.g, a.value).value;
    EndsExactly(NodeOf(s, a), a.value);
    if |s.db.tasks| <= id < |tasks'| {
      assert Runner.Fresh(s.db.tasks[a.id].run, a.id, tasks'[id]);
    }
  }

  lemma EndsExactly(node: Node, v: Value)
    requires Interpret(node, v).Ok?
    ensures Interpret(node, v).value == [] <==> Ends(node, v)
  {
    hide Interpret, Jsonable, Routed;
    var hops := Interpret(node, v).value;
    if hops != [] {
      HopsMean(node, v, 0, hops[0].target, hops[0].payload);
    } else if !Ends(node, v) {
      SomeEdge(node, v);
      forall target: string, payload: Json ensures !Sends(node, v, 0, target, payload) {
        HopsMean(node, v, 0, target, payload);
      }
      assert false;
    }
  }

  // An accepted value that does not end its branch sends something.
  lemma SomeEdge(node: Node, v: Value)
    requires Interpret(node, v).Ok? && !Ends(node, v)
    ensures exists target: string, payload: Json :: Sends(node, v, 0, target, payload)
  {
    if Routed(v) {
      var item := ItemsOf(v)[0];
      if item.Transition? {
        assert Sends(node, v, 0, item.target, Jsonable(item.payload));
      } else {
        assert Sends(node, v, 0, item.name, JNull);
      }
    } else {
      RefusedReturns(node, v);
      assert Sends(node, v, 0, node.edges[0], Jsonable(v));
    }
  }

  lemma FailureResult(s: State, a: Step, id: nat, last: Option<Step>)
    requires a.Fail? && Enabled(s, a) && RowOk(s.db.tasks, id, last)
    ensures RowOk(Next(s, a).db.tasks, id, if a.id == id then Some(a) else last)
  {
    hide Jsonable, Ends;
  }

  lemma EngineKeepsResults(s: State, a: Step)
    requires Enabled(s, a) && (a.Submit? || a.Claim? || a.Park? || a.Unpark? || a.Crash? || a.Drop? || a.Recover?)
    ensures KeepsResults(s.db.tasks, Next(s, a).db.tasks)
  {
    hide Enabled, Apply, Next, Runner.Priority;
    if a.Submit? {
      SubmitIs(s, a);
    } else if a.Claim? {
      ClaimIs(s, a);
    } else if a.Park? || a.Unpark? {
      ParkIs(s, a);
    } else if a.Recover? {
      RecoverIs(s, a);
    } else {
      CrashIs(s, a);
    }
  }

  lemma OperatorKeepsResults(s: State, a: Step)
    requires Enabled(s, a) && (a.Pause? || a.Resume? || a.Cancel? || a.Retry? || a.SetStatus?)
    ensures KeepsResults(s.db.tasks, Next(s, a).db.tasks)
  {
    hide Enabled, Apply, Next, Finalized, Reopened, ReopenEvents;
    if a.Pause? || a.Resume? {
      PauseIs(s, a);
    } else if a.Cancel? {
      CancelIs(s, a);
    } else if a.Retry? {
      RegisteredGraphs(s, a);
      RetryAdds(s, a);
    } else {
      SetStatusWrites(s, a);
    }
  }

  // What a rerun or a move was accepted with.
  lemma RegisteredGraphs(s: State, a: Step)
    requires Enabled(s, a) && (a.Rerun? || a.Retry? || a.Move?)
    ensures Registered(a.graphs)
  {
    hide Finalized, Ops.Rerun, Ops.Retry, Ops.Move;
  }

  lemma RerunKeepsResults(s: State, a: Step)
    requires Enabled(s, a) && (a.Rerun? || a.Move?)
    ensures KeepsResults(s.db.tasks, Next(s, a).db.tasks)
  {
    hide Enabled, Apply, Next, Finalized, Reopened, ReopenEvents;
    if a.Rerun? {
      RerunRows(s, a);
    } else {
      Interventions.MoveAdds(s, a);
    }
  }

  lemma RerunRows(s: State, a: Step)
    requires Enabled(s, a) && a.Rerun?
    ensures KeepsResults(s.db.tasks, Next(s, a).db.tasks)
  {
    hide Indexes, ArrivalsPayload, ArrivalSenders, Runner.Priority, Finalized, Ops.LastForNode, Ops.NextAttempt;
  }

  lemma StepResult(s: State, a: Step, id: nat, last: Option<Step>)
    requires Enabled(s, a) && RowOk(s.db.tasks, id, last)
    ensures RowOk(Next(s, a).db.tasks, id, if Records(a, id) then Some(a) else last)
  {
    hide Enabled, Apply, Next, RowOk, KeepsResults;
    if a.Succeed? {
      SuccessResult(s, a, id, last);
    } else if a.Fail? {
      FailureResult(s, a, id, last);
    } else {
      if a.Rerun? || a.Move? {
        RerunKeepsResults(s, a);
      } else if a.Pause? || a.Resume? || a.Cancel? || a.Retry? || a.SetStatus? {
        OperatorKeepsResults(s, a);
      } else {
        EngineKeepsResults(s, a);
      }
      RowKept(s.db.tasks, Next(s, a).db.tasks, id, last);
    }
  }

  lemma {:induction false} RunResult(s: State, trace: seq<Step>, id: nat, last: Option<Step>)
    requires IsRun(s, trace) && RowOk(s.db.tasks, id, last)
    ensures RowOk(End(s, trace).db.tasks, id, LastOutcome(trace, id, last))
    decreases |trace|
  {
    hide Enabled, Next, RowOk, Records;
    if trace != [] {
      StepResult(s, trace[0], id, last);
      RunResult(Next(s, trace[0]), trace[1..], id, if Records(trace[0], id) then Some(trace[0]) else last);
    }
  }

  // In every run, whatever the steps: a done row has the JSON of the very value its last
  // attempt returned, and is terminal exactly when that ended its branch. A row that failed
  // has no result, nor one with no outcome yet.
  lemma RowsHaveResults(trace: seq<Step>, id: nat)
    requires IsRun(Empty, trace) && id < |End(Empty, trace).db.tasks|
    ensures var t, last := End(Empty, trace).db.tasks[id], LastOutcome(trace, id, None);
            && ResultOk(t, last)
            && (t.status == Done ==>
                  && last.Some? && last.value.Succeed? && t.node in last.value.g.nodes
                  && t.result == Some(Jsonable(last.value.value))
                  && (t.terminal <==> Ends(last.value.g.nodes[t.node], last.value.value)))
            && (t.terminal ==> t.result.Some?)
  {
    hide Jsonable, Ends, End;
    RunResult(Empty, trace, id, None);
  }

  // ------------------------------------------------------------------------
  // The output of a run
  // ------------------------------------------------------------------------

  predicate OutputsOk(db: Tables) {
    forall run | run in db.runs && db.runs[run].status == Completed ::
        db.runs[run].output == Some(Runner.RunOutput(db.tasks, run))
  }

  // The rows of the run are as they were where it matters, and none is new and terminal.
  predicate SameTerminals(tasks: seq<Task>, tasks': seq<Task>, run: string) {
    && |tasks| <= |tasks'|
    && (forall c | 0 <= c < |tasks| ::
          && tasks'[c].run == tasks[c].run
          && (tasks[c].run == run ==>
                && tasks'[c].branch == tasks[c].branch && tasks'[c].result == tasks[c].result
                && tasks'[c].terminal == tasks[c].terminal))
    && (forall c | |tasks| <= c < |tasks'| :: !tasks'[c].terminal)
  }

  lemma {:induction false} InsertSame(tasks: seq<Task>, tasks': seq<Task>, order: seq<nat>, id: nat, run: string)
    requires SameTerminals(tasks, tasks', run) && id < |tasks| && tasks[id].run == run
    requires forall i | 0 <= i < |order| :: order[i] < |tasks| && tasks[order[i]].run == run
    ensures Runner.Insert(tasks', order, id) == Runner.Insert(tasks, order, id)
    ensures forall i | 0 <= i < |Runner.Insert(tasks, order, id)| ::
              tasks[Runner.Insert(tasks, order, id)[i]].run == run
    decreases |order|
  {
    if order != [] && !Runner.PathBefore(tasks[id].branch, tasks[order[0]].branch) {
      InsertSame(tasks, tasks', order[1..], id, run);
    }
  }

  lemma {:induction false} TerminalsSame(tasks: seq<Task>, tasks': seq<Task>, run: string, upto: nat)
    requires SameTerminals(tasks, tasks', run) && upto <= |tasks'|
    ensures var k := if upto <= |tasks| then upto else |tasks|;
            && Runner.Terminals(tasks', run, upto) == Runner.Terminals(tasks, run, k)
            && forall i | 0 <= i < |Runner.Terminals(tasks, run, k)| ::
                 tasks[Runner.Terminals(tasks, run, k)[i]].run == run
  {
    if upto > 0 {
      TerminalsSame(tasks, tasks', run, upto - 1);
      if upto <= |tasks| && tasks[upto - 1].run == run && tasks[upto - 1].terminal {
        InsertSame(tasks, tasks', Runner.Terminals(tasks, run, upto - 1), upto - 1, run);
      }
    }
  }

  lemma OutputSame(tasks: seq<Task>, tasks': seq<Task>, run: string)
    requires SameTerminals(tasks, tasks', run)
    ensures Runner.RunOutput(tasks', run) == Runner.RunOutput(tasks, run)
  {
    hide Runner.Output;
    TerminalsSame(tasks, tasks', run, |tasks'|);
    var order := Runner.Terminals(tasks, run, |tasks|);
    assert seq(|order|, i requires 0 <= i < |order| => Runner.ResultOf(tasks'[order[i]])) ==
           seq(|order|, i requires 0 <= i < |order| => Runner.ResultOf(tasks[order[i]]));
  }

  // A run that was completed already keeps its rows and its output.
  lemma OutputStays(db: Tables, db': Tables, run: string)
    requires OutputsOk(db) && run in db.runs && db.runs[run].status == Completed
    requires SameTerminals(db.tasks, db'.tasks, run) && run in db'.runs && db'.runs[run] == db.runs[run]
    ensures db'.runs[run].output == Some(Runner.RunOutput(db'.tasks, run))
  {
    OutputSame(db.tasks, db'.tasks, run);
  }

  // A step that completes no run and records no outcome.
  lemma QuietOutputs(s: State, a: Step)
    requires OutputsOk(s.db) && Enabled(s, a) && KeepsResults(s.db.tasks, Next(s, a).db.tasks)
    requires forall run | run in Next(s, a).db.runs && Next(s, a).db.runs[run].status == Completed ::
               run in s.db.runs && s.db.runs[run] == Next(s, a).db.runs[run]
    ensures OutputsOk(Next(s, a).db)
  {
    hide Enabled, Apply, Next, Runner.RunOutput;
    forall run | run in Next(s, a).db.runs && Next(s, a).db.runs[run].status == Completed
      ensures Next(s, a).db.runs[run].output == Some(Runner.RunOutput(Next(s, a).db.tasks, run))
    {
      OutputStays(s.db, Next(s, a).db, run);
    }
  }

  lemma FailureOutputs(s: State, a: Step)
    requires Steady(s) && CompletedAreFinished(s.db) && OutputsOk(s.db) && a.Fail? && Enabled(s, a)
    ensures OutputsOk(Next(s, a).db)
  {
    hide Runner.RunOutput, Steady, CompletedAreFinished, Finished, OutputsOk;
    HeldNotFinished(s, a.id);
    forall run | run in Next(s, a).db.runs && Next(s, a).db.runs[run].status == Completed
      ensures Next(s, a).db.runs[run].output == Some(Runner.RunOutput(Next(s, a).db.tasks, run))
    {
      NotFinishedNow(s.db, s.db.tasks[a.id].run);
      OutputStays(s.db, Next(s, a).db, run);
    }
    AllOutputs(Next(s, a).db);
  }

  lemma AllOutputs(db: Tables)
    requires forall run | run in db.runs && db.runs[run].status == Completed ::
               db.runs[run].output == Some(Runner.RunOutput(db.tasks, run))
    ensures OutputsOk(db)
  {
  }

  lemma NotFinishedNow(db: Tables, run: string)
    requires CompletedAreFinished(db) && !Finished(db, run)
    ensures run in db.runs ==> db.runs[run].status != Completed
  {
  }

  lemma SuccessOutputs(s: State, a: Step)
    requires Steady(s) && CompletedAreFinished(s.db) && OutputsOk(s.db) && a.Succeed? && Enabled(s, a)
    ensures OutputsOk(Next(s, a).db)
  {
    hide Runner.RunOutput, Steady, CompletedAreFinished, Finished, OutputsOk, Enabled, Apply, Next;
    var s' := Next(s, a);
    var own := SuccessOwn(s, a);
    HeldNotFinished(s, a.id);
    NotFinishedNow(s.db, own);
    forall run | run in s'.db.runs && s'.db.runs[run].status == Completed
      ensures s'.db.runs[run].output == Some(Runner.RunOutput(s'.db.tasks, run))
    {
      SuccessRun(s, a, run);
      if run == own {
        CompletesWith(s, a);
      } else {
        SuccessTerminals(s, a, run);
        OutputStays(s.db, s'.db, run);
      }
    }
    AllOutputs(s'.db);
  }

  // The run of a row that succeeds.
  lemma SuccessOwn(s: State, a: Step) returns (run: string)
    requires a.Succeed? && Enabled(s, a)
    ensures Held(s, a.id) && run == s.db.tasks[a.id].run
  {
    hide Runner.Success;
    run := s.db.tasks[a.id].run;
  }

  lemma SuccessTerminals(s: State, a: Step, run: string)
    requires a.Succeed? && Enabled(s, a) && Held(s, a.id) && run != s.db.tasks[a.id].run
    ensures SameTerminals(s.db.tasks, Next(s, a).db.tasks, run)
  {
    hide Runner.Written, Runner.SettleRun, Runner.Route, Runner.Reading, Jsonable, Interpret, IsFanOut;
    SuccessWrites(s.db, a.id, a.g, a.value, a.now);
    var tasks' := Next(s, a).db.tasks;
    forall c | |s.db.tasks| <= c < |tasks'| ensures !tasks'[c].terminal {
      assert Runner.Fresh(s.db.tasks[a.id].run, a.id, tasks'[c]);
    }
  }

  // A success that completes its run leaves it the output of its rows as they are then.
  lemma CompletesWith(s: State, a: Step)
    requires a.Succeed? && Enabled(s, a) && Held(s, a.id)
    ensures var run, db' := s.db.tasks[a.id].run, Next(s, a).db;
            (run in s.db.runs ==> s.db.runs[run].status != Completed) && run in db'.runs
              && db'.runs[run].status == Completed ==>
              db'.runs[run].output == Some(Runner.RunOutput(db'.tasks, run))
  {
    hide Runner.RunOutput, Runner.Route, Runner.Reading, HasPending, HasIncomplete, Jsonable, Interpret, IsFanOut,
        Runner.HopTargets;
  }

  lemma StepOutputs(s: State, a: Step)
    requires Steady(s) && CompletedAreFinished(s.db) && OutputsOk(s.db) && Enabled(s, a)
    ensures OutputsOk(Next(s, a).db)
  {
    hide Steady, CompletedAreFinished, OutputsOk, KeepsResults, Enabled, Apply, Next;
    if a.Succeed? {
      SuccessOutputs(s, a);
    } else if a.Fail? {
      FailureOutputs(s, a);
    } else {
      NoneCompletes(s, a);
      if a.Rerun? || a.Move? {
        RerunKeepsResults(s, a);
      } else if a.Pause? || a.Resume? || a.Cancel? || a.Retry? || a.SetStatus? {
        OperatorKeepsResults(s, a);
      } else {
        EngineKeepsResults(s, a);
      }
      QuietOutputs(s, a);
    }
  }

  // No other step completes a run, or changes one that is completed and stays so.
  lemma NoneCompletes(s: State, a: Step)
    requires Enabled(s, a) && !a.Succeed? && !a.Fail?
    ensures forall run | run in Next(s, a).db.runs && Next(s, a).db.runs[run].status == Completed ::
              run in s.db.runs && s.db.runs[run] == Next(s, a).db.runs[run]
  {
    hide Enabled, Apply, Next, Finalized, ReopenEvents;
    if a.Submit? {
      SubmitIs(s, a);
    } else if a.Claim? {
      ClaimIs(s, a);
    } else if a.Park? || a.Unpark? {
      ParkIs(s, a);
    } else if a.Recover? {
      RecoverIs(s, a);
    } else if a.Crash? || a.Drop? {
      CrashIs(s, a);
    } else if a.Pause? || a.Resume? {
      PauseRuns(s, a);
    } else if a.Cancel? {
      CancelStops(s, a, 0);
    } else {
      ReopeningRuns(s, a);
    }
  }

  lemma PauseRuns(s: State, a: Step)
    requires Enabled(s, a) && (a.Pause? || a.Resume?)
    ensures a.run in s.db.runs && Next(s, a).db.runs ==
        s.db.runs[a.run := s.db.runs[a.run].(status := if a.Pause? then Paused else Running)]
  {
  }

  lemma ReopeningRuns(s: State, a: Step)
    requires Enabled(s, a) && (a.Rerun? || a.Retry? || a.Move? || a.SetStatus?)
    ensures forall run | run in Next(s, a).db.runs && Next(s, a).db.runs[run].status == Completed ::
              run in s.db.runs && s.db.runs[run] == Next(s, a).db.runs[run]
  {
    hide Enabled, Apply, Next, Finalized, ReopenEvents;
    if a.SetStatus? {
      SetStatusWrites(s, a);
    } else {
      RegisteredGraphs(s, a);
      if a.Retry? {
        RetryAdds(s, a);
      } else if a.Move? {
        Interventions.MoveAdds(s, a);
      } else {
        RerunRuns(s, a);
      }
    }
  }

  lemma RerunRuns(s: State, a: Step)
    requires Enabled(s, a) && a.Rerun?
    ensures Reopened(s.db.runs, Next(s, a).db.runs, a.run)
  {
    hide Ops.Reopen, Ops.RerunRow, Finalized, Reopened, ReopenEvents;
    var target := Ops.Lookup(a.graphs, s.db.runs[a.run].workflow, a.node).value;
    ReopenIs(Ops.EnqueueRow(s.db, Ops.RerunRow(s.db, a.run, target, a.now).value), a.run);
  }

  lemma {:induction false} RunOutputs(s: State, trace: seq<Step>)
    requires Steady(s) && CompletedAreFinished(s.db) && OutputsOk(s.db) && IsRun(s, trace)
    ensures OutputsOk(End(s, trace).db)
    decreases |trace|
  {
    hide Steady, CompletedAreFinished, OutputsOk, Enabled, Next;
    if trace != [] {
      StepSteady(s, trace[0]);
      StepFinishes(s, trace[0]);
      StepOutputs(s, trace[0]);
      RunOutputs(Next(s, trace[0]), trace[1..]);
    }
  }

  lemma EmptyOutputs()
    ensures Steady(Empty) && CompletedAreFinished(Empty.db) && OutputsOk(Empty.db)
  {
  }

  lemma OutputNow(db: Tables, run: string)
    requires OutputsOk(db) && run in db.runs && db.runs[run].status == Completed
    ensures db.runs[run].output == Some(Runner.RunOutput(db.tasks, run))
  {
  }

  // In every run, whatever the steps: a completed run has as its output the result of its one
  // terminal row, or the list of the results of all of them in branch order, the id breaking
  // ties.
  lemma CompletedHasOutput(trace: seq<Step>, run: string) returns (order: seq<nat>)
    requires IsRun(Empty, trace)
    ensures var db := End(Empty, trace).db;
            && Ordered(db.tasks, order)
            && (forall id: nat :: id in order <==> id < |db.tasks| && db.tasks[id].run == run && db.tasks[id].terminal)
            && (run in db.runs && db.runs[run].status == Completed ==>
                  && db.runs[run].output.Some?
                  && var output := db.runs[run].output.value;
                     if |order| == 1 then db.tasks[order[0]].result == Some(output)
                     else
                       && output.JList? && |output.items| == |order|
                       && forall i | 0 <= i < |order| :: db.tasks[order[i]].result == Some(output.items[i]))
  {
    hide Enabled, Next, End, Ordered, Runner.RunOutput, Steady, CompletedAreFinished, OutputsOk;
    EmptyOutputs();
    RunOutputs(Empty, trace);
    if run in End(Empty, trace).db.runs && End(Empty, trace).db.runs[run].status == Completed {
      OutputNow(End(Empty, trace).db, run);
    }
    var db := End(Empty, trace).db;
    order := Runner.Terminals(db.tasks, run, |db.tasks|);
    OutputIsInOrder(db.tasks, run);
    forall i | 0 <= i < |order| ensures db.tasks[order[i]].result.Some? {
      assert order[i] in order;
      RowsHaveResults(trace, order[i]);
    }
  }

  // ------------------------------------------------------------------------
  // The end of a run
  // ------------------------------------------------------------------------

  // A run ends by a success, a failure or a cancellation, and is stamped with its time.
  lemma EndsAreStamped(s: State, a: Step, run: string)
    requires Enabled(s, a) && run in s.db.runs && s.db.runs[run].status in {Queued, Running, Paused}
    requires run in Next(s, a).db.runs && Next(s, a).db.runs[run].status in {Completed, RunFailed, RunCancelled}
    ensures a.Succeed? || a.Fail? || a.Cancel?
    ensures Next(s, a).db.runs[run].finished == Some(a.now)
    ensures Next(s, a).db.runs[run].status == RunCancelled <==> a.Cancel?
    ensures a.Fail? ==> Next(s, a).db.runs[run].status == RunFailed
  {
    hide Enabled, Apply, Next, Finalized, ReopenEvents;
    if a.Succeed? {
      SuccessStamps(s, a, run);
    } else if a.Fail? {
      FailIs(s, a);
      Runner.FailureIs(s.db, a.id, a.retryable, a.budget, a.now);
    } else if a.Cancel? {
      CancelStops(s, a, 0);
    } else if a.Submit? {
      SubmitIs(s, a);
    } else if a.Claim? {
      ClaimIs(s, a);
    } else if a.Park? || a.Unpark? {
      ParkIs(s, a);
    } else if a.Recover? {
      RecoverIs(s, a);
    } else if a.Crash? || a.Drop? {
      CrashIs(s, a);
    } else if a.Pause? || a.Resume? {
      PauseRuns(s, a);
    } else {
      ReopeningEndsNone(s, a, run);
    }
  }

  lemma SuccessStamps(s: State, a: Step, run: string)
    requires a.Succeed? && Enabled(s, a) && run in s.db.runs && s.db.runs[run].status in {Queued, Running, Paused}
    ensures run in Next(s, a).db.runs
    ensures Next(s, a).db.runs[run].status in {Completed, RunFailed} ==> Next(s, a).db.runs[run].finished == Some(a.now)
    ensures Next(s, a).db.runs[run].status != RunCancelled
  {
    hide Runner.RunOutput, Runner.Route, Runner.Reading, HasPending, HasIncomplete, Jsonable, Interpret, IsFanOut,
        Runner.HopTargets;
  }

  lemma ReopeningEndsNone(s: State, a: Step, run: string)
    requires Enabled(s, a) && (a.Rerun? || a.Retry? || a.Move? || a.SetStatus?)
    requires run in s.db.runs && s.db.runs[run].status in {Queued, Running, Paused}
    ensures run in Next(s, a).db.runs && Next(s, a).db.runs[run] == s.db.runs[run]
  {
    hide Enabled, Apply, Next, Finalized, ReopenEvents;
    if a.SetStatus? {
      SetStatusWrites(s, a);
    } else {
      RegisteredGraphs(s, a);
      if a.Retry? {
        RetryAdds(s, a);
      } else if a.Move? {
        Interventions.MoveAdds(s, a);
      } else {
        RerunRuns(s, a);
      }
    }
  }
}
